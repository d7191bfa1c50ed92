/** fork_join_sort on the fork/join pool.

    Every call of the sort is code of a thread of the pool's model: the first call is code of the
    main thread, every other one is a task.  A step of the program is a step of the pool or one of
    the two algorithms that a call runs on its range.  A call merges when its join has returned;
    that both halves are then finished is proved. */
module ForkJoinSortOnPool {
  import opened ForkJoinPool
  import opened ForkJoinInvariants
  import opened ForkJoinSteps
  import opened ForkJoinTheorems
  import Sort = ForkJoinSort

  /** Which half of which half: false is the left one. */
  type Path = seq<bool>

  datatype Stage = Calls | Joining | Joined | Done

  /** A call: the code that executes it, the group it has created for its halves, the tasks submitted
      to it, and how far it is. */
  datatype Act = Act(code: Creator, forked: bool, group: Group, tasks: seq<Task>, stage: Stage)

  /** `paths` is what each task calls. */
  datatype Program = Program(s: State, acts: map<Path, Act>, paths: map<Task, Path>, a: seq<real>, main: Tid)

  datatype Range = Range(lo: nat, hi: nat)

  function RangeOf(p: Path, n: nat): (r: Range)
    ensures r.lo <= r.hi <= n
  {
    if p == [] then Range(0, n)
    else
      var r := RangeOf(p[..|p| - 1], n);
      if p[|p| - 1] then Range(Sort.Mid(r.lo, r.hi), r.hi) else Range(r.lo, Sort.Mid(r.lo, r.hi))
  }

  predicate IsLong(p: Path, n: nat) {
    RangeOf(p, n).hi - RangeOf(p, n).lo > Sort.THRESHOLD
  }

  // ---- steps ----

  /** Thread t executes call p. */
  predicate Runs(j: Program, t: Tid, p: Path) {
    p in j.acts && InUserCode(j.s, t) && Me(j.s, t) == j.acts[p].code
  }

  /** What threads do between the lines of the program. */
  predicate InPool(j: Program, a: Action) {
    || a.ATake? || a.ASleep? || a.AWake? || a.AExit?
    || (a.AStop? && [] in j.acts && j.acts[[]].stage.Done?)
  }

  ghost predicate PoolStep(j: Program, a: Action, j': Program) {
    InPool(j, a) && Step(j.s, a, j'.s) && j' == j.(s := j'.s)
  }

  ghost predicate ForkStep(j: Program, t: Tid, p: Path, j': Program) {
    && Runs(j, t, p) && j.acts[p].stage.Calls? && !j.acts[p].forked && IsLong(p, |j.a|)
    && Step(j.s, AFork(t), j'.s)
    && j' == j.(s := j'.s, acts := j.acts[p := j.acts[p].(forked := true, group := j.s.clock)])
  }

  /** The half that a call submits next. */
  function Kid(p: Path, b: nat): Path {
    p + [b > 0]
  }

  /** Submits to group `g`, queued or run at once. */
  predicate Submits(a: Action, t: Tid, g: Group) {
    a == ASubmitInline(t, g) || (a.ASubmitQueued? && a.t == t && a.g == g)
  }

  ghost predicate SubmitStep(j: Program, t: Tid, p: Path, a: Action, j': Program) {
    && Runs(j, t, p) && j.acts[p].stage.Calls? && j.acts[p].forked && |j.acts[p].tasks| < 2
    && Submits(a, t, j.acts[p].group) && Step(j.s, a, j'.s)
    && j' == Submitted(j, p).(s := j'.s)
  }

  function Submitted(j: Program, p: Path): Program
    requires p in j.acts
  {
    var x, task := j.acts[p], j.s.clock;
    var kid := Kid(p, |x.tasks|);
    j.(acts := j.acts[p := x.(tasks := x.tasks + [task])][kid := Act(ByTask(task), false, 0, [], Calls)],
       paths := j.paths[task := kid])
  }

  ghost predicate JoinStep(j: Program, t: Tid, p: Path, j': Program) {
    && Runs(j, t, p) && j.acts[p].stage.Calls? && j.acts[p].forked && |j.acts[p].tasks| == 2
    && Step(j.s, ABeginJoin(t, j.acts[p].group), j'.s)
    && j' == j.(s := j'.s, acts := j.acts[p := j.acts[p].(stage := Joining)])
  }

  ghost predicate ReturnStep(j: Program, t: Tid, p: Path, j': Program) {
    && p in j.acts && j.acts[p].stage.Joining?
    && Step(j.s, AReturn(t), j'.s) && Top(j.s.threads[t]) == Join(j.acts[p].group)
    && j' == j.(s := j'.s, acts := j.acts[p := j.acts[p].(stage := Joined)])
  }

  ghost predicate LeafStep(j: Program, t: Tid, p: Path, j': Program) {
    && Runs(j, t, p) && j.acts[p].stage.Calls? && !IsLong(p, |j.a|)
    && Sort.Sorts(j.a, j'.a, RangeOf(p, |j.a|).lo, RangeOf(p, |j.a|).hi)
    && j' == j.(a := j'.a, acts := j.acts[p := j.acts[p].(stage := Done)])
  }

  ghost predicate MergeStep(j: Program, t: Tid, p: Path, j': Program) {
    var r := RangeOf(p, |j.a|);
    && Runs(j, t, p) && j.acts[p].stage.Joined?
    && Sort.Merges(j.a, j'.a, r.lo, Sort.Mid(r.lo, r.hi), r.hi)
    && j' == j.(a := j'.a, acts := j.acts[p := j.acts[p].(stage := Done)])
  }

  /** The function object of a task returns. */
  ghost predicate FinishStep(j: Program, t: Tid, p: Path, j': Program) {
    && Runs(j, t, p) && j.acts[p].stage.Done?
    && Step(j.s, AFinish(t), j'.s) && j' == j.(s := j'.s)
  }

  datatype Move =
    | MPool(a: Action)
    | MFork(t: Tid, p: Path)
    | MSubmit(t: Tid, p: Path, a: Action)
    | MJoin(t: Tid, p: Path)
    | MReturn(t: Tid, p: Path)
    | MLeaf(t: Tid, p: Path)
    | MMerge(t: Tid, p: Path)
    | MFinish(t: Tid, p: Path)

  ghost predicate Moves(j: Program, m: Move, j': Program) {
    match m
    case MPool(a) => PoolStep(j, a, j')
    case MFork(t, p) => ForkStep(j, t, p, j')
    case MSubmit(t, p, a) => SubmitStep(j, t, p, a, j')
    case MJoin(t, p) => JoinStep(j, t, p, j')
    case MReturn(t, p) => ReturnStep(j, t, p, j')
    case MLeaf(t, p) => LeafStep(j, t, p, j')
    case MMerge(t, p) => MergeStep(j, t, p, j')
    case MFinish(t, p) => FinishStep(j, t, p, j')
  }

  ghost predicate Next(j: Program, j': Program) {
    exists m :: Moves(j, m, j')
  }

  /** The main thread is about to call fork_join_sort; the pool has no other user. */
  ghost predicate Init(j: Program) {
    && ForkJoinPool.Init(j.s) && j.main !in j.s.pool && j.s.threads.Keys == j.s.pool + {j.main}
    && j.acts == map[[] := Act(ByThread(j.main), false, 0, [], Calls)] && j.paths == map[]
  }

  ghost predicate IsRun(run: seq<Program>) {
    && |run| > 0 && Init(run[0])
    && forall i {:trigger Next(run[i - 1], run[i])} :: 0 < i < |run| ==> Next(run[i - 1], run[i])
  }

  // ---- the invariant of the calls ----

  ghost predicate ActsOk(j: Program) {
    && [] in j.acts && j.acts[[]].code == ByThread(j.main)
    && (forall p {:trigger ActOk(j, p)} :: p in j.acts ==> ActOk(j, p))
    && (forall x {:trigger Called(j, x)} :: x in j.s.live ==> Called(j, x))
    && (forall x :: x in j.paths ==> x < j.s.clock)
  }

  /** A task calls one half. */
  predicate Called(j: Program, x: Task) {
    x in j.paths && j.paths[x] in j.acts && j.acts[j.paths[x]].code == ByTask(x)
  }

  ghost predicate ActOk(j: Program, p: Path)
    requires p in j.acts
  {
    StageOk(j, p) && CodeOk(j, p) && KidsOk(j, p)
  }

  predicate StageOk(j: Program, p: Path)
    requires p in j.acts
  {
    var x := j.acts[p];
    && |x.tasks| <= 2 && (x.tasks != [] ==> x.forked) && (x.forked ==> IsLong(p, |j.a|))
    && (x.stage.Joining? || x.stage.Joined? ==> x.forked) && (x.forked && !x.stage.Calls? ==> |x.tasks| == 2)
  }

  /** Only the first call is not a task; a task that is not live has returned. */
  predicate CodeOk(j: Program, p: Path)
    requires p in j.acts
  {
    var x := j.acts[p];
    && (x.code.ByThread? ==> p == [] && x.code == ByThread(j.main))
    && (x.code.ByTask? ==>
         && x.code.task < j.s.clock && x.code.task in j.paths && j.paths[x.code.task] == p
         && (x.code.task !in j.s.live ==> x.stage.Done?))
    && (x.forked ==> x.group in j.s.work && x.group in j.s.creator && j.s.creator[x.group] == x.code)
    && (p != [] ==> HasParent(j, p))
  }

  predicate HasParent(j: Program, p: Path)
    requires p in j.acts && p != []
  {
    var q, b := p[..|p| - 1], if p[|p| - 1] then 1 else 0;
    q in j.acts && b < |j.acts[q].tasks| && j.acts[p].code == ByTask(j.acts[q].tasks[b])
  }

  /** The tasks of a call are its halves; they are of its group, and none is live once the join has
      returned. */
  ghost predicate KidsOk(j: Program, p: Path)
    requires p in j.acts
  {
    forall b: nat {:trigger KidOk(j, p, b)} :: b < |j.acts[p].tasks| ==> KidOk(j, p, b)
  }

  predicate KidOk(j: Program, p: Path, b: nat)
    requires p in j.acts && b < |j.acts[p].tasks|
  {
    var x := j.acts[p];
    var task := x.tasks[b];
    && Kid(p, b) in j.acts && j.acts[Kid(p, b)].code == ByTask(task)
    && (task in j.s.live ==> j.s.live[task] == x.group && (x.stage.Calls? || x.stage.Joining?))
  }

  // ---- the invariant of the stacks ----

  predicate IsCode(f: Frame) {
    f.Run? || f.External?
  }

  function PathAt(paths: map<Task, Path>, f: Frame): Path {
    if f.Run? && f.task in paths then paths[f.task] else []
  }

  /** A call joins exactly while a join of its group stands on its frame. */
  predicate AboveOk(acts: map<Path, Act>, paths: map<Task, Path>, stack: seq<Frame>, i: nat)
    requires i < |stack|
  {
    var p := PathAt(paths, stack[i]);
    && (stack[i].Run? ==> stack[i].task in paths)
    && p in acts
    && if i + 1 < |stack| && stack[i + 1].Join? then acts[p].stage.Joining? && acts[p].group == stack[i + 1].group
       else !acts[p].stage.Joining?
  }

  ghost predicate StackMatches(j: Program, t: Tid)
    requires t in j.s.threads
  {
    var stack := j.s.threads[t].stack;
    forall i: nat {:trigger AboveOk(j.acts, j.paths, stack, i)} :: i < |stack| && IsCode(stack[i]) ==> AboveOk(j.acts, j.paths, stack, i)
  }

  ghost predicate StacksMatch(j: Program) {
    && (forall t {:trigger StackMatches(j, t)} :: t in j.s.threads ==> StackMatches(j, t))
    && j.main in j.s.threads && j.main !in j.s.pool && j.s.threads.Keys <= j.s.pool + {j.main}
  }

  ghost predicate Good(j: Program) {
    && Inv(j.s) && ActsOk(j) && StacksMatch(j)
    && (j.s.stopped ==> j.acts[[]].stage.Done?)
  }

  // ---- calls that a step leaves alone ----

  /** Calls keep their code and their tasks, names stay, and a task leaves `live` only when its call
      is done. */
  ghost predicate Grows(j: Program, j': Program) {
    && |j'.a| == |j.a| && j'.main == j.main && j.s.clock <= j'.s.clock
    && (forall p :: p in j.acts ==> p in j'.acts && j'.acts[p].code == j.acts[p].code && j.acts[p].tasks <= j'.acts[p].tasks)
    && (forall x :: x in j.paths ==> x in j'.paths && j'.paths[x] == j.paths[x])
    && (forall g :: g in j.s.work ==> g in j'.s.work)
    && (forall g :: g in j.s.creator ==> g in j'.s.creator && j'.s.creator[g] == j.s.creator[g])
    && (forall x :: x in j'.s.live && x < j.s.clock ==> x in j.s.live && j'.s.live[x] == j.s.live[x])
    && (forall p :: p in j.acts && j.acts[p].code.ByTask? && j.acts[p].code.task in j.s.live && j.acts[p].code.task !in j'.s.live ==>
         j'.acts[p].stage.Done?)
  }

  /** Every call but those in `changed` is as it was. */
  lemma ActsKept(j: Program, j': Program, changed: set<Path>)
    requires ActsOk(j) && Grows(j, j')
    requires forall p :: p in j'.acts && p !in changed ==> p in j.acts && j'.acts[p] == j.acts[p]
    requires forall p :: p in j'.acts && p in changed ==> ActOk(j', p)
    requires forall x :: x in j'.s.live && x !in j.s.live ==> Called(j', x)
    requires forall x :: x in j'.paths && x !in j.paths ==> x < j'.s.clock
    ensures ActsOk(j')
  {
    forall p | p in j'.acts ensures ActOk(j', p) {
      if p !in changed {
        ActKept(j, j', p);
      }
    }
    forall x | x in j'.s.live ensures Called(j', x) {
      if x in j.s.live {
        assert Called(j, x);
      }
    }
  }

  lemma ActKept(j: Program, j': Program, p: Path)
    requires ActsOk(j) && Grows(j, j') && p in j.acts && p in j'.acts && j'.acts[p] == j.acts[p]
    ensures ActOk(j', p)
  {
    assert ActOk(j, p);
    forall b: nat | b < |j'.acts[p].tasks| ensures KidOk(j', p, b) {
      assert KidOk(j, p, b);
      assert ActOk(j, Kid(p, b));
    }
  }

  /** The pool's own steps start, finish and submit nothing. */
  lemma PoolActs(j: Program, a: Action, j': Program)
    requires ActsOk(j) && PoolStep(j, a, j')
    ensures ActsOk(j') && j'.s.live == j.s.live
  {
    ActsKept(j, j', {});
  }

  /** Code names one call. */
  lemma SameCode(j: Program, p: Path, q: Path)
    requires ActsOk(j) && p in j.acts && q in j.acts && j.acts[p].code == j.acts[q].code
    ensures p == q
  {
    assert ActOk(j, p) && ActOk(j, q);
  }

  lemma ForkActs(j: Program, t: Tid, p: Path, j': Program)
    requires ActsOk(j) && ForkStep(j, t, p, j') && GroupsOk(j.s)
    ensures ActsOk(j')
  {
    assert ActOk(j, p);
    forall g | g in j.s.creator ensures g < j.s.clock {
      assert GroupOk(j.s, g);
    }
    assert j.acts[p].tasks == [];
    assert ActOk(j', p);
    ActsKept(j, j', {p});
  }

  /** A call moves on to another stage; once it is past its join none of its tasks is live. */
  lemma StageActs(j: Program, p: Path, stage: Stage, j': Program)
    requires ActsOk(j) && p in j.acts && Grows(j, j') && j'.s.live == j.s.live
    requires j'.acts == j.acts[p := j.acts[p].(stage := stage)] && j'.paths == j.paths
    requires StageOk(j', p) && (j.acts[p].stage.Done? ==> stage.Done?)
    requires stage.Joined? || stage.Done? ==> NoneLive(j, p)
    ensures ActsOk(j')
  {
    assert ActOk(j, p);
    forall b: nat | b < |j'.acts[p].tasks| ensures KidOk(j', p, b) {
      assert KidOk(j, p, b);
    }
    assert ActOk(j', p);
    ActsKept(j, j', {p});
  }

  /** No task of the call is queued or running. */
  predicate NoneLive(j: Program, p: Path)
    requires p in j.acts
  {
    forall b: nat :: b < |j.acts[p].tasks| ==> j.acts[p].tasks[b] !in j.s.live
  }

  /** The pool's guarantee: when a join can return, its call's tasks are not live. */
  lemma JoinReturns(j: Program, t: Tid, p: Path)
    requires Inv(j.s) && ActsOk(j) && p in j.acts && j.acts[p].stage.Joining?
    requires CanReturn(j.s, t) && Top(j.s.threads[t]) == Join(j.acts[p].group)
    ensures NoneLive(j, p)
  {
    var g := j.acts[p].group;
    assert ActOk(j, p) && CountOk(j.s, g);
    forall b: nat | b < |j.acts[p].tasks| ensures j.acts[p].tasks[b] !in j.s.live {
      assert KidOk(j, p, b);
      assert j.acts[p].tasks[b] in TasksOf(j.s.live, g) ==> |TasksOf(j.s.live, g)| > 0;
    }
  }

  /** Once the join has returned both halves are done. */
  lemma HalvesDone(j: Program, p: Path, b: nat)
    requires ActsOk(j) && p in j.acts && b < |j.acts[p].tasks| && (j.acts[p].stage.Joined? || j.acts[p].stage.Done?)
    ensures Kid(p, b) in j.acts && j.acts[Kid(p, b)].stage.Done?
  {
    assert ActOk(j, p) && KidOk(j, p, b);
    assert ActOk(j, Kid(p, b));
  }

  lemma PastJoin(j: Program, p: Path)
    requires ActsOk(j) && p in j.acts && (j.acts[p].stage.Joined? || j.acts[p].tasks == [])
    ensures NoneLive(j, p)
  {
    assert ActOk(j, p);
    forall b: nat | b < |j.acts[p].tasks| ensures j.acts[p].tasks[b] !in j.s.live {
      assert KidOk(j, p, b);
    }
  }

  lemma JoinActs(j: Program, t: Tid, p: Path, j': Program)
    requires ActsOk(j) && JoinStep(j, t, p, j')
    ensures ActsOk(j')
  {
    assert ActOk(j, p);
    StageActs(j, p, Joining, j');
  }

  lemma ReturnActs(j: Program, t: Tid, p: Path, j': Program)
    requires Inv(j.s) && ActsOk(j) && ReturnStep(j, t, p, j')
    ensures ActsOk(j')
  {
    assert ActOk(j, p);
    JoinReturns(j, t, p);
    StageActs(j, p, Joined, j');
  }

  lemma LeafActs(j: Program, t: Tid, p: Path, j': Program)
    requires ActsOk(j) && LeafStep(j, t, p, j')
    ensures ActsOk(j')
  {
    assert ActOk(j, p);
    PastJoin(j, p);
    StageActs(j, p, Done, j');
  }

  lemma MergeActs(j: Program, t: Tid, p: Path, j': Program)
    requires ActsOk(j) && MergeStep(j, t, p, j')
    ensures ActsOk(j')
  {
    assert ActOk(j, p);
    PastJoin(j, p);
    StageActs(j, p, Done, j');
  }

  lemma FinishActs(j: Program, t: Tid, p: Path, j': Program)
    requires ActsOk(j) && FinishStep(j, t, p, j') && StacksOk(j.s)
    ensures ActsOk(j')
  {
    var x := Top(j.s.threads[t]).task;
    assert j.acts[p].code == ByTask(x);
    forall q | q in j.acts && j.acts[q].code == ByTask(x) ensures j.acts[q].stage.Done? {
      SameCode(j, p, q);
    }
    ActsKept(j, j', {});
  }

  /** What a submission, queued or run at once, does to names and counts. */
  ghost predicate Submission(s: State, g: Group, s': State) {
    && s'.live == s.live[s.clock := g] && s.clock !in s.live && s.clock < s'.clock
    && s'.creator == s.creator && s'.work.Keys == s.work.Keys
  }

  lemma IsSubmission(s: State, t: Tid, g: Group, a: Action, s': State)
    requires Inv(s) && Submits(a, t, g) && Step(s, a, s')
    ensures Submission(s, g, s')
  {
    assert TaskOk(s, s.clock);
  }

  lemma SubmittedActs(j: Program, p: Path, j': Program)
    requires ActsOk(j) && p in j.acts && j.acts[p].stage.Calls? && j.acts[p].forked && |j.acts[p].tasks| < 2
    requires Submission(j.s, j.acts[p].group, j'.s) && j' == Submitted(j, p).(s := j'.s)
    ensures ActsOk(j')
  {
    var kid := Kid(p, |j.acts[p].tasks|);
    FreshKid(j, p, |j.acts[p].tasks|);
    assert kid[..|p|] == p && kid != p;
    SubmitGrows(j, p, j');
    SubmitterOk(j, p, j');
    assert ActOk(j', kid);
    ActsKept(j, j', {p, kid});
  }

  lemma SubmitGrows(j: Program, p: Path, j': Program)
    requires ActsOk(j) && p in j.acts && |j.acts[p].tasks| < 2 && Kid(p, |j.acts[p].tasks|) !in j.acts
    requires Submission(j.s, j.acts[p].group, j'.s) && j' == Submitted(j, p).(s := j'.s)
    ensures Grows(j, j')
  {
  }

  lemma SubmitterOk(j: Program, p: Path, j': Program)
    requires ActsOk(j) && p in j.acts && j.acts[p].stage.Calls? && j.acts[p].forked && |j.acts[p].tasks| < 2
    requires Submission(j.s, j.acts[p].group, j'.s) && j' == Submitted(j, p).(s := j'.s) && Grows(j, j')
    requires Kid(p, |j.acts[p].tasks|) != p && Kid(p, |j.acts[p].tasks|) !in j.acts
    ensures ActOk(j', p)
  {
    assert ActOk(j, p);
    forall c: nat | c < |j'.acts[p].tasks| ensures KidOk(j', p, c) {
      if c < |j.acts[p].tasks| {
        assert KidOk(j, p, c);
        assert ActOk(j, Kid(p, c));
      }
    }
  }

  lemma SubmitActs(j: Program, t: Tid, p: Path, a: Action, j': Program)
    requires Inv(j.s) && ActsOk(j) && SubmitStep(j, t, p, a, j')
    ensures ActsOk(j')
  {
    IsSubmission(j.s, t, j.acts[p].group, a, j'.s);
    SubmittedActs(j, p, j');
  }

  /** A half that has not been submitted is not called. */
  lemma FreshKid(j: Program, p: Path, b: nat)
    requires ActsOk(j) && p in j.acts && |j.acts[p].tasks| <= b < 2
    ensures Kid(p, b) !in j.acts
  {
    var kid := Kid(p, b);
    assert kid[..|p|] == p;
    assert kid in j.acts ==> ActOk(j, kid);
  }

  // ---- stacks ----

  /** Which call a frame of code executes. */
  lemma FrameCode(j: Program, t: Tid, i: nat)
    requires StacksOk(j.s) && ActsOk(j) && StacksMatch(j) && t in j.s.threads && i < |j.s.threads[t].stack|
    requires IsCode(j.s.threads[t].stack[i])
    ensures var f := j.s.threads[t].stack[i]; var p := PathAt(j.paths, f);
      && p in j.acts && AboveOk(j.acts, j.paths, j.s.threads[t].stack, i)
      && (f.Run? ==> j.acts[p].code == ByTask(f.task) && f.task in j.s.running && j.s.running[f.task] == Place(t, i, f.start))
      && (f.External? ==> j.acts[p].code == ByThread(j.main) && t == j.main && i == 0)
  {
    assert StackOk(j.s, t) && StackMatches(j, t);
    assert FrameOk(j.s, t, j.s.threads[t].stack, i);
    var f := j.s.threads[t].stack[i];
    if f.Run? {
      assert Called(j, f.task);
    }
  }

  /** A call has one frame. */
  lemma OneFrame(j: Program, t: Tid, i: nat, u: Tid, k: nat)
    requires StacksOk(j.s) && ActsOk(j) && StacksMatch(j)
    requires t in j.s.threads && i < |j.s.threads[t].stack| && IsCode(j.s.threads[t].stack[i])
    requires u in j.s.threads && k < |j.s.threads[u].stack| && IsCode(j.s.threads[u].stack[k])
    requires PathAt(j.paths, j.s.threads[t].stack[i]) == PathAt(j.paths, j.s.threads[u].stack[k])
    ensures t == u && i == k
  {
    FrameCode(j, t, i);
    FrameCode(j, u, k);
  }

  /** The thread that runs a call has the call's frame on top. */
  lemma RunsOnTop(j: Program, t: Tid, p: Path)
    requires StacksOk(j.s) && ActsOk(j) && StacksMatch(j) && Runs(j, t, p)
    ensures j.s.threads[t].stack != [] && IsCode(Top(j.s.threads[t])) && PathAt(j.paths, Top(j.s.threads[t])) == p
    ensures !j.acts[p].stage.Joining?
  {
    var stack := j.s.threads[t].stack;
    FrameCode(j, t, |stack| - 1);
    SameCode(j, p, PathAt(j.paths, Top(j.s.threads[t])));
  }

  /** No call starts or ends a join, and none is forgotten. */
  ghost predicate SameJoins(j: Program, j': Program) {
    && j'.main == j.main && j'.s.pool == j.s.pool
    && (forall x :: x in j.paths ==> x in j'.paths && j'.paths[x] == j.paths[x])
    && (forall p :: p in j.acts ==>
         && p in j'.acts && (j'.acts[p].stage.Joining? <==> j.acts[p].stage.Joining?)
         && (j.acts[p].stage.Joining? ==> j'.acts[p].group == j.acts[p].group))
  }

  /** Frames up to `k` as they were, and nothing but a join may stand on the last of them as a join. */
  lemma FramesMatch(j: Program, j': Program, t: Tid, k: nat)
    requires StacksMatch(j) && SameJoins(j, j') && t in j.s.threads && t in j'.s.threads
    requires var st, st' := j.s.threads[t].stack, j'.s.threads[t].stack;
      k <= |st| && k <= |st'| && st'[..k] == st[..k]
      && (k < |st| && st[k].Join? ==> k < |st'| && st'[k] == st[k]) && (k < |st'| && st'[k].Join? ==> k < |st| && st'[k] == st[k])
    ensures var st' := j'.s.threads[t].stack;
      forall i: nat :: i < k && IsCode(st'[i]) ==> AboveOk(j'.acts, j'.paths, st', i)
  {
    var st, st' := j.s.threads[t].stack, j'.s.threads[t].stack;
    assert StackMatches(j, t);
    forall i: nat | i < k && IsCode(st'[i]) ensures AboveOk(j'.acts, j'.paths, st', i) {
      assert st'[i] == st'[..k][i] == st[..k][i] == st[i];
      if i + 1 < k {
        assert st'[i + 1] == st'[..k][i + 1] == st[..k][i + 1] == st[i + 1];
      }
      assert AboveOk(j.acts, j.paths, st, i);
    }
  }

  /** All stacks are as they were. */
  lemma StacksStay(j: Program, j': Program)
    requires StacksMatch(j) && SameJoins(j, j')
    requires forall t :: t in j'.s.threads ==> t in j.s.threads && j'.s.threads[t].stack == j.s.threads[t].stack
    requires j.main in j'.s.threads
    ensures StacksMatch(j')
  {
    forall t | t in j'.s.threads ensures StackMatches(j', t) {
      FramesMatch(j, j', t, |j.s.threads[t].stack|);
    }
  }

  /** One stack has changed. */
  lemma OthersMatch(j: Program, j': Program, t: Tid)
    requires StacksMatch(j) && SameJoins(j, j') && t in j'.s.threads && StackMatches(j', t)
    requires j'.s.threads.Keys == j.s.threads.Keys
    requires forall u :: u in j.s.threads && u != t ==> j'.s.threads[u].stack == j.s.threads[u].stack
    ensures StacksMatch(j')
  {
    forall u | u in j'.s.threads ensures StackMatches(j', u) {
      if u != t {
        FramesMatch(j, j', u, |j.s.threads[u].stack|);
      }
    }
  }

  /** A task begins on top of a stack. */
  lemma PushMatches(j: Program, j': Program, t: Tid, f: Frame)
    requires StacksMatch(j) && SameJoins(j, j') && t in j.s.threads && j'.s.threads.Keys == j.s.threads.Keys
    requires j'.s.threads[t].stack == j.s.threads[t].stack + [f] && f.Run?
    requires f.task in j'.paths && j'.paths[f.task] in j'.acts && !j'.acts[j'.paths[f.task]].stage.Joining?
    requires forall u :: u in j.s.threads && u != t ==> j'.s.threads[u].stack == j.s.threads[u].stack
    ensures StacksMatch(j')
  {
    var st, st' := j.s.threads[t].stack, j'.s.threads[t].stack;
    FramesMatch(j, j', t, |st|);
    forall i: nat | i < |st'| && IsCode(st'[i]) ensures AboveOk(j'.acts, j'.paths, st', i) {
      if i == |st| {
        assert st'[i] == f;
      }
    }
    assert StackMatches(j', t);
    OthersMatch(j, j', t);
  }

  /** A queued task has not begun, so it joins nothing. */
  lemma QueuedDoesNotJoin(j: Program, x: Task)
    requires Inv(j.s) && ActsOk(j) && x in j.s.queue
    ensures x in j.paths && j.paths[x] in j.acts && !j.acts[j.paths[x]].stage.Joining?
  {
    assert TaskOk(j.s, x) && Called(j, x);
    var p := j.paths[x];
    assert ActOk(j, p);
    assert j.acts[p].forked ==> GroupOk(j.s, j.acts[p].group);
  }

  lemma PoolStacks(j: Program, a: Action, j': Program)
    requires Inv(j.s) && ActsOk(j) && StacksMatch(j) && PoolStep(j, a, j')
    ensures StacksMatch(j')
  {
    match a
    case ATake(t) =>
      QueuedDoesNotJoin(j, j.s.queue[0]);
      PushMatches(j, j', t, Top(j'.s.threads[t]));
    case AExit(t) =>
      MainStays(j, t);
      StacksStay(j, j');
    case ASleep(t) => StacksStay(j, j');
    case AWake(t) => StacksStay(j, j');
    case AStop(t) => StacksStay(j, j');
  }

  lemma MainStays(j: Program, t: Tid)
    requires StacksOk(j.s) && StacksMatch(j) && CanExit(j.s, t)
    ensures t != j.main
  {
    var stack := j.s.threads[t].stack;
    assert StackOk(j.s, t) && FrameOk(j.s, t, stack, |stack| - 1);
  }

  lemma SubmitStacks(j: Program, t: Tid, p: Path, a: Action, j': Program)
    requires Inv(j.s) && ActsOk(j) && StacksMatch(j) && SubmitStep(j, t, p, a, j')
    ensures StacksMatch(j')
  {
    FreshKid(j, p, |j.acts[p].tasks|);
    assert j.s.clock !in j.paths;
    if a.ASubmitInline? {
      PushMatches(j, j', t, Top(j'.s.threads[t]));
    } else {
      StacksStay(j, j');
    }
  }

  lemma FinishStacks(j: Program, t: Tid, p: Path, j': Program)
    requires Inv(j.s) && ActsOk(j) && StacksMatch(j) && FinishStep(j, t, p, j')
    ensures StacksMatch(j')
  {
    var st, st' := j.s.threads[t].stack, j'.s.threads[t].stack;
    assert st' == st[..|st| - 1];
    FramesMatch(j, j', t, |st'|);
    assert StackMatches(j', t);
    OthersMatch(j, j', t);
  }

  /** A call begins or ends its join: all other frames are of other calls. */
  lemma OthersMatchJoin(j: Program, p: Path, t: Tid, k: nat, x: Act, s': State)
    requires StacksOk(j.s) && ActsOk(j) && StacksMatch(j) && t in j.s.threads && k < |j.s.threads[t].stack|
    requires IsCode(j.s.threads[t].stack[k]) && PathAt(j.paths, j.s.threads[t].stack[k]) == p && p in j.acts
    requires s'.threads.Keys == j.s.threads.Keys && s'.pool == j.s.pool
    requires forall u :: u in j.s.threads && u != t ==> s'.threads[u].stack == j.s.threads[u].stack
    requires var st, st' := j.s.threads[t].stack, s'.threads[t].stack;
      && k < |st'| <= k + 2 && |st| <= k + 2 && st'[..k + 1] == st[..k + 1]
      && (k + 1 < |st'| ==> st'[k + 1].Join?)
      && AboveOk(j.acts[p := x], j.paths, st', k)
    ensures StacksMatch(j.(s := s', acts := j.acts[p := x]))
  {
    var j' := j.(s := s', acts := j.acts[p := x]);
    forall u | u in s'.threads ensures StackMatches(j', u) {
      var st, st' := j.s.threads[u].stack, s'.threads[u].stack;
      assert StackMatches(j, u);
      forall i: nat | i < |st'| && IsCode(st'[i]) ensures AboveOk(j'.acts, j.paths, st', i) {
        if u == t {
          assert i <= k;
          assert st'[i] == st'[..k + 1][i] == st[..k + 1][i] == st[i];
          if i < k {
            assert st'[i + 1] == st'[..k + 1][i + 1] == st[..k + 1][i + 1] == st[i + 1];
          }
        }
        if u != t || i < k {
          assert AboveOk(j.acts, j.paths, st, i);
          if PathAt(j.paths, st[i]) == p {
            OneFrame(j, t, k, u, i);
          }
        }
      }
    }
  }

  lemma JoinStacks(j: Program, t: Tid, p: Path, j': Program)
    requires Inv(j.s) && ActsOk(j) && StacksMatch(j) && JoinStep(j, t, p, j')
    ensures StacksMatch(j')
  {
    RunsOnTop(j, t, p);
    var k := |j.s.threads[t].stack| - 1;
    FrameCode(j, t, k);
    OthersMatchJoin(j, p, t, k, j'.acts[p], j'.s);
  }

  /** Below a join stands the call that joins. */
  lemma JoinerBelow(j: Program, t: Tid, p: Path)
    requires Inv(j.s) && ActsOk(j) && StacksMatch(j) && CanReturn(j.s, t)
    requires p in j.acts && j.acts[p].stage.Joining? && Top(j.s.threads[t]) == Join(j.acts[p].group)
    ensures var st := j.s.threads[t].stack;
      |st| > 1 && IsCode(st[|st| - 2]) && PathAt(j.paths, st[|st| - 2]) == p
  {
    var st := j.s.threads[t].stack;
    var k := |st| - 2;
    assert StackOk(j.s, t) && FrameOk(j.s, t, st, k + 1);
    FrameCode(j, t, k);
    var q := PathAt(j.paths, st[k]);
    assert ActOk(j, p) && ActOk(j, q);
    SameCode(j, p, q);
  }

  lemma ReturnStacks(j: Program, t: Tid, p: Path, j': Program)
    requires Inv(j.s) && ActsOk(j) && StacksMatch(j) && ReturnStep(j, t, p, j')
    ensures StacksMatch(j')
  {
    JoinerBelow(j, t, p);
    var k := |j.s.threads[t].stack| - 2;
    FrameCode(j, t, k);
    OthersMatchJoin(j, p, t, k, j'.acts[p], j'.s);
  }

  // ---- every move keeps the invariant ----

  lemma MovePool(j: Program, m: Move, j': Program)
    requires Inv(j.s) && Moves(j, m, j')
    ensures Inv(j'.s)
  {
    match m
    case MPool(a) => StepKept(j.s, a, j'.s);
    case MFork(t, p) => StepKept(j.s, AFork(t), j'.s);
    case MSubmit(t, p, a) => StepKept(j.s, a, j'.s);
    case MJoin(t, p) => StepKept(j.s, ABeginJoin(t, j.acts[p].group), j'.s);
    case MReturn(t, p) => StepKept(j.s, AReturn(t), j'.s);
    case MLeaf(t, p) =>
    case MMerge(t, p) =>
    case MFinish(t, p) => StepKept(j.s, AFinish(t), j'.s);
  }

  lemma MoveActs(j: Program, m: Move, j': Program)
    requires Inv(j.s) && ActsOk(j) && Moves(j, m, j')
    ensures ActsOk(j')
  {
    match m
    case MPool(a) => PoolActs(j, a, j');
    case MFork(t, p) => ForkActs(j, t, p, j');
    case MSubmit(t, p, a) => SubmitActs(j, t, p, a, j');
    case MJoin(t, p) => JoinActs(j, t, p, j');
    case MReturn(t, p) => ReturnActs(j, t, p, j');
    case MLeaf(t, p) => LeafActs(j, t, p, j');
    case MMerge(t, p) => MergeActs(j, t, p, j');
    case MFinish(t, p) => FinishActs(j, t, p, j');
  }

  lemma MoveStacks(j: Program, m: Move, j': Program)
    requires Inv(j.s) && ActsOk(j) && StacksMatch(j) && Moves(j, m, j')
    ensures StacksMatch(j')
  {
    match m
    case MPool(a) => PoolStacks(j, a, j');
    case MFork(t, p) => StacksStay(j, j');
    case MSubmit(t, p, a) => SubmitStacks(j, t, p, a, j');
    case MJoin(t, p) => JoinStacks(j, t, p, j');
    case MReturn(t, p) => ReturnStacks(j, t, p, j');
    case MLeaf(t, p) => StacksStay(j, j');
    case MMerge(t, p) => StacksStay(j, j');
    case MFinish(t, p) => FinishStacks(j, t, p, j');
  }

  /** The pool is stopped only after the first call has returned. */
  lemma MoveStopped(j: Program, m: Move, j': Program)
    requires [] in j.acts && Moves(j, m, j') && (j.s.stopped ==> j.acts[[]].stage.Done?)
    ensures [] in j'.acts && (j'.s.stopped ==> j'.acts[[]].stage.Done?)
  {
    if m.MSubmit? {
      assert Kid(m.p, |j.acts[m.p].tasks|) != [];
    }
  }

  lemma MoveKept(j: Program, m: Move, j': Program)
    requires Good(j) && Moves(j, m, j')
    ensures Good(j')
  {
    MoveStopped(j, m, j');
    MovePool(j, m, j');
    MoveActs(j, m, j');
    MoveStacks(j, m, j');
  }

  lemma NextKept(j: Program, j': Program)
    requires Good(j) && Next(j, j')
    ensures Good(j')
  {
    var m :| Moves(j, m, j');
    MoveKept(j, m, j');
  }

  lemma InitGood(j: Program)
    requires Init(j)
    ensures Good(j)
  {
    InitInv(j.s);
    assert ActOk(j, []);
    forall t | t in j.s.threads ensures StackMatches(j, t) {
      assert j.s.threads[t].stack == [if t in j.s.pool then Worker else External];
    }
  }

  lemma {:induction false} RunGood(run: seq<Program>, i: nat)
    requires IsRun(run) && i < |run|
    ensures Good(run[i])
  {
    if i == 0 {
      InitGood(run[0]);
    } else {
      RunGood(run, i - 1);
      assert Next(run[i - 1], run[i]);
      NextKept(run[i - 1], run[i]);
    }
  }
}
