/** What the fork/join pool guarantees in every reachable state. */
module ForkJoinTheorems {
  import opened ForkJoinPool
  import opened ForkJoinInvariants
  import opened ForkJoinSteps

  lemma StepKept(s: State, a: Action, s': State)
    requires Inv(s) && Step(s, a, s')
    ensures Inv(s')
  {
    match a
    case ATake(t) => TakeKept(s, t);
    case ASleep(t) => SleepKept(s, t);
    case AWake(t) => WakeKept(s, t);
    case AExit(t) => ExitKept(s, t);
    case AReturn(t) => ReturnKept(s, t);
    case AFork(t) => ForkKept(s, t);
    case ABeginJoin(t, g) => BeginJoinKept(s, t, g);
    case ASubmitQueued(t, g, woken) => SubmitQueuedKept(s, t, g, woken);
    case ASubmitInline(t, g) => SubmitInlineKept(s, t, g);
    case AFinish(t) => FinishKept(s, t);
    case AStop(t) => StopKept(s, t);
  }

  lemma InitInv(s: State)
    requires Init(s)
    ensures Inv(s)
  {
    assert Busy(s.work) == {};
    forall t | t in s.threads ensures StackOk(s, t) {
      assert FrameOk(s, t, s.threads[t].stack, 0);
    }
  }

  lemma NextKept(s: State, s': State)
    requires Inv(s) && Next(s, s')
    ensures Inv(s')
  {
    var a :| Step(s, a, s');
    StepKept(s, a, s');
  }

  lemma {:induction false} RunKept(run: seq<State>, i: nat)
    requires IsRun(run) && i < |run|
    ensures Inv(run[i])
  {
    if i == 0 {
      InitInv(run[0]);
    } else {
      RunKept(run, i - 1);
      assert Next(run[i - 1], run[i]);
      NextKept(run[i - 1], run[i]);
    }
  }

  // ---- accounting ----

  /** In every reachable state a group's count is the number of its tasks that are queued or
      running, and the use count is the number of groups with work, plus one before the stop. */
  lemma CountsAreExact(run: seq<State>, i: nat, g: Group)
    requires IsRun(run) && i < |run| && g in run[i].work
    ensures var s := run[i];
      && s.work[g] == |set task | task in s.live && s.live[task] == g|
      && (forall task :: task in s.live <==> task in s.queue || task in s.running)
      && s.useCount == |set h | h in s.work && s.work[h] > 0| + if s.stopped then 0 else 1
  {
    RunKept(run, i);
    var s := run[i];
    assert CountOk(s, g);
    assert TasksOf(s.live, g) == set task | task in s.live && s.live[task] == g;
    assert Busy(s.work) == set h | h in s.work && s.work[h] > 0;
    forall task ensures task in s.live <==> task in s.queue || task in s.running {
      assert TaskOk(s, task);
    }
  }

  /** `join` returns only when its group is finished: no task of it is queued or running. */
  lemma JoinWaitsForGroup(run: seq<State>, i: nat, t: Tid)
    requires IsRun(run) && i < |run| && CanReturn(run[i], t)
    ensures var s, g := run[i], Top(run[i].threads[t]).group;
      && (forall task :: task in s.queue ==> task in s.live && s.live[task] != g)
      && (forall task :: task in s.running ==> task in s.live && s.live[task] != g)
  {
    RunKept(run, i);
    var s, g := run[i], Top(run[i].threads[t]).group;
    assert CountOk(s, g);
    forall task | task in s.queue || task in s.running ensures task in s.live && s.live[task] != g {
      assert TaskOk(s, task);
      assert task in TasksOf(s.live, g) <==> s.live[task] == g;
    }
  }

  /** A worker exits only after the stop, with nothing queued and nothing running. */
  lemma WorkersExitWhenDone(run: seq<State>, i: nat, t: Tid)
    requires IsRun(run) && i < |run| && CanExit(run[i], t)
    ensures run[i].stopped && run[i].queue == [] && run[i].running == map[]
  {
    RunKept(run, i);
    NothingLeft(run[i]);
  }

  /** Once stopped and without work, nobody sleeps: every worker is on its way to its exit. */
  lemma ShutdownCompletes(run: seq<State>, i: nat)
    requires IsRun(run) && i < |run| && run[i].stopped && run[i].live == map[]
    ensures forall t :: t in run[i].threads ==> !run[i].threads[t].asleep
    ensures forall t :: t in run[i].threads && t in run[i].pool ==> CanExit(run[i], t) || CanReturn(run[i], t)
  {
    RunKept(run, i);
    var s := run[i];
    forall g | g in s.work ensures s.work[g] == 0 {
      assert CountOk(s, g);
      assert TasksOf(s.live, g) == {};
    }
    assert Busy(s.work) == {};
    forall t | t in s.threads ensures !s.threads[t].asleep {
      assert SleeperOk(s, t) && StackOk(s, t);
    }
    forall t | t in s.threads && t in s.pool ensures CanExit(s, t) || CanReturn(s, t) {
      var stack := s.threads[t].stack;
      assert StackOk(s, t);
      assert FrameOk(s, t, stack, |stack| - 1);
      if Top(s.threads[t]).Run? {
        RunsOn(s, t);
      }
    }
  }

  /** A running task can always finish: its group's count covers it. */
  lemma RunningCanFinish(s: State, t: Tid)
    requires Inv(s) && Awake(s, t) && Top(s.threads[t]).Run?
    ensures CanFinish(s, t)
  {
    RunsOn(s, t);
    LiveMeansInUse(s, Top(s.threads[t]).task);
  }

  // ---- no task is stranded ----

  /** While a task is queued, some pool thread is awake or some awake thread has a join under way
      for a group that still has work, although a notification may have gone to a joiner. */
  lemma NoTaskIsStranded(run: seq<State>, i: nat)
    requires IsRun(run) && i < |run| && run[i].queue != []
    ensures exists t :: Witness(run[i], t)
  {
    RunKept(run, i);
  }

  // ---- no deadlock ----

  /** The thread can do something other than go to sleep or wake for no reason: run its task's
      code, take a queued task, or leave its loop. */
  ghost predicate Productive(s: State, t: Tid) {
    CanFinish(s, t) || CanTake(s, t) || CanReturn(s, t) || CanExit(s, t)
  }

  /** The running task that began last. */
  lemma {:induction false} LatestOf(s: State, tasks: set<Task>) returns (task: Task)
    requires tasks != {} && tasks <= s.running.Keys
    ensures task in tasks && forall x :: x in tasks ==> s.running[x].start <= s.running[task].start
    decreases tasks
  {
    var x :| x in tasks;
    var rest := tasks - {x};
    assert tasks == rest + {x};
    if rest == {} {
      task := x;
    } else {
      task := LatestOf(s, rest);
      if s.running[x].start > s.running[task].start {
        task := x;
      }
    }
  }

  /** The frame of the task that began last is on top of its stack, or a join of that task is. */
  lemma LatestIsOnTop(s: State, task: Task)
    requires Inv(s) && task in s.running
    requires forall x :: x in s.running ==> s.running[x].start <= s.running[task].start
    ensures var p := s.running[task];
      && p.host in s.threads && s.threads[p.host].stack != []
      && var f := Top(s.threads[p.host]);
         (f.Run? && f.task == task) || (f.Join? && f.group in s.work && p.start < f.group)
  {
    assert RunningOk(s, task);
    var p := s.running[task];
    var stack := s.threads[p.host].stack;
    assert StackOk(s, p.host);
    forall i | p.depth < i < |stack| ensures !stack[i].Run? && !stack[i].External? {
      assert FrameOk(s, p.host, stack, i);
    }
    forall i | p.depth < i < |stack| ensures stack[i].Join? && i == p.depth + 1 {
      assert FrameOk(s, p.host, stack, i);
    }
    assert FrameOk(s, p.host, stack, |stack| - 1);
  }

  /** With nothing queued, the thread of the task that began last is not blocked: a join of it
      waits for nobody, because a child still running would have begun later. */
  lemma LatestIsProductive(s: State, task: Task)
    requires Inv(s) && s.queue == [] && task in s.running
    requires forall x :: x in s.running ==> s.running[x].start <= s.running[task].start
    ensures Productive(s, s.running[task].host)
  {
    var h := s.running[task].host;
    LatestIsOnTop(s, task);
    var f := Top(s.threads[h]);
    assert SleeperOk(s, h) && StackOk(s, h);
    if f.Run? {
      RunningCanFinish(s, h);
    } else {
      assert CountOk(s, f.group);
      if s.work[f.group] > 0 {
        var child :| child in TasksOf(s.live, f.group);
        assert TaskOk(s, child);
        RunningBeganLater(s, child);
      }
    }
  }

  /** A running task began after its group was created. */
  lemma RunningBeganLater(s: State, child: Task)
    requires Inv(s) && child in s.running
    ensures child in s.live && s.live[child] < s.running[child].start < s.clock
  {
    assert RunningOk(s, child);
    var p := s.running[child];
    assert StackOk(s, p.host);
    assert FrameOk(s, p.host, s.threads[p.host].stack, p.depth);
  }

  lemma SomeProductive(s: State) returns (t: Tid)
    requires Inv(s) && s.live != map[]
    ensures Productive(s, t)
  {
    if s.queue != [] {
      t :| Witness(s, t);
      WitnessIsProductive(s, t);
    } else {
      var x :| x in s.live;
      assert TaskOk(s, x);
      var task := LatestOf(s, s.running.Keys);
      LatestIsProductive(s, task);
      t := s.running[task].host;
    }
  }

  /** Nested joins never deadlock: in every reachable state with unfinished work some thread can
      run, take a task or leave its loop, whatever the threads that sleep are waiting for. */
  lemma NoDeadlock(run: seq<State>, i: nat)
    requires IsRun(run) && i < |run| && run[i].live != map[]
    ensures exists t :: Productive(run[i], t)
  {
    RunKept(run, i);
    var t := SomeProductive(run[i]);
  }

  lemma WitnessIsProductive(s: State, t: Tid)
    requires Inv(s) && s.queue != [] && Witness(s, t)
    ensures Productive(s, t)
  {
    var stack := s.threads[t].stack;
    assert StackOk(s, t);
    assert FrameOk(s, t, stack, |stack| - 1);
    QueuedMeansInUse(s);
    assert TaskOk(s, s.queue[0]);
    assert stack[|stack| - 1].External? ==> |stack| == 1;
    match Top(s.threads[t])
    case Worker =>
    case External =>
    case Run(_, _, _) => RunningCanFinish(s, t);
    case Join(g) =>
  }

  /** A sleeping joiner waits for a child; every child it waits for is queued, or runs on another thread
      and began after the group was created, hence after the task that waits. */
  lemma WaitsForLaterStart(run: seq<State>, i: nat, t: Tid) returns (child: Task)
    requires IsRun(run) && i < |run|
    requires t in run[i].threads && run[i].threads[t].asleep && Top(run[i].threads[t]).Join?
    ensures child in run[i].live && run[i].live[child] == Top(run[i].threads[t]).group
    ensures forall x :: x in run[i].live && run[i].live[x] == Top(run[i].threads[t]).group ==>
      x in run[i].queue || RunsElsewhere(run[i], t, x)
    ensures var stack := run[i].threads[t].stack;
      |stack| > 1 && (stack[|stack| - 2].Run? ==> Top(run[i].threads[t]).group > stack[|stack| - 2].start)
  {
    RunKept(run, i);
    var s, stack := run[i], run[i].threads[t].stack;
    var g := Top(s.threads[t]).group;
    assert StackOk(s, t) && SleeperOk(s, t);
    assert FrameOk(s, t, stack, |stack| - 1) && CountOk(s, g);
    child :| child in TasksOf(s.live, g);
    forall x | x in s.live && s.live[x] == g ensures x in s.queue || RunsElsewhere(s, t, x) {
      assert TaskOk(s, x);
      if x in s.running {
        RunningBeganLater(s, x);
        NotOwnChild(s, t, x);
      }
    }
  }

  /** The task runs on another thread than t and began after its group was created. */
  ghost predicate RunsElsewhere(s: State, t: Tid, x: Task) {
    x in s.running && x in s.live && s.running[x].host != t && s.running[x].start > s.live[x]
  }

  /** A thread that joins a group runs no task of that group further down its stack. */
  lemma NotOwnChild(s: State, t: Tid, child: Task)
    requires Inv(s) && t in s.threads && Top(s.threads[t]).Join?
    requires child in s.running && child in s.live && s.live[child] == Top(s.threads[t]).group
    ensures s.running[child].host != t
  {
    var stack := s.threads[t].stack;
    assert StackOk(s, t) && RunningOk(s, child);
    RunningBeganLater(s, child);
    var l := |stack| - 1;
    assert FrameOk(s, t, stack, l) && FrameOk(s, t, stack, l - 1);
  }

  // ---- chains of waits ----

  /** Thread t sleeps in a join of a group of which thread u runs a task. */
  ghost predicate WaitsFor(s: State, t: Tid, u: Tid) {
    && t in s.threads && s.threads[t].asleep && Top(s.threads[t]).Join?
    && exists child :: RunsFor(s, Top(s.threads[t]).group, u, child)
  }

  ghost predicate RunsFor(s: State, g: Group, u: Tid, child: Task) {
    child in s.running && child in s.live && s.live[child] == g && s.running[child].host == u
  }

  /** When the task that runs highest on a stack began; -1 without one. */
  function LastStart(stack: seq<Frame>): int {
    if stack == [] then -1
    else if stack[|stack| - 1].Run? then stack[|stack| - 1].start
    else LastStart(stack[..|stack| - 1])
  }

  lemma {:induction false} LastStartIsLatest(stack: seq<Frame>, i: nat)
    requires i < |stack| && stack[i].Run?
    requires forall j, k :: 0 <= j < k < |stack| && stack[j].Run? && stack[k].Run? ==> stack[j].start < stack[k].start
    ensures stack[i].start <= LastStart(stack)
  {
    var l := |stack| - 1;
    if !stack[l].Run? {
      LastStartIsLatest(stack[..l], i);
    }
  }

  /** Below a join stands the code that joins. */
  lemma LastBelow(stack: seq<Frame>)
    requires |stack| > 1 && stack[|stack| - 1].Join?
    ensures stack[|stack| - 2].Run? ==> LastStart(stack) == stack[|stack| - 2].start
    ensures stack[|stack| - 2].External? && |stack| == 2 ==> LastStart(stack) == -1
  {
    var below := stack[..|stack| - 1];
    assert LastStart(stack) == LastStart(below);
    if |stack| == 2 {
      assert below[..0] == [];
      assert !below[0].Run? ==> LastStart(below) == LastStart([]);
    }
  }

  lemma WaitsIncrease(s: State, t: Tid, u: Tid)
    requires Inv(s) && WaitsFor(s, t, u)
    ensures u in s.threads && LastStart(s.threads[t].stack) < LastStart(s.threads[u].stack)
  {
    var stack := s.threads[t].stack;
    var l := |stack| - 1;
    var child :| RunsFor(s, stack[l].group, u, child);
    assert StackOk(s, t) && RunningOk(s, child) && StackOk(s, u);
    assert FrameOk(s, t, stack, l) && FrameOk(s, t, stack, l - 1);
    RunningBeganLater(s, child);
    LastStartIsLatest(s.threads[u].stack, s.running[child].depth);
    LastBelow(stack);
  }

  ghost predicate IsChain(s: State, chain: seq<Tid>) {
    |chain| > 1 && forall k {:trigger WaitsFor(s, chain[k - 1], chain[k])} :: 0 < k < |chain| ==> WaitsFor(s, chain[k - 1], chain[k])
  }

  lemma {:induction false} ChainIncreases(s: State, chain: seq<Tid>, k: nat)
    requires Inv(s) && IsChain(s, chain) && 0 < k < |chain|
    ensures chain[0] in s.threads && chain[k] in s.threads
    ensures LastStart(s.threads[chain[0]].stack) < LastStart(s.threads[chain[k]].stack)
  {
    assert WaitsFor(s, chain[k - 1], chain[k]);
    WaitsIncrease(s, chain[k - 1], chain[k]);
    if k > 1 {
      ChainIncreases(s, chain, k - 1);
    }
  }

  /** However joins are nested and tasks are borrowed, no chain of waits closes. */
  lemma NoWaitCycle(run: seq<State>, i: nat, chain: seq<Tid>)
    requires IsRun(run) && i < |run| && IsChain(run[i], chain)
    ensures chain[0] != chain[|chain| - 1]
  {
    RunKept(run, i);
    ChainIncreases(run[i], chain, |chain| - 1);
  }

  // ---- tasks start in the order of their submission ----

  /** Names are given in the order of submission. */
  ghost predicate QueueInOrder(s: State) {
    forall i, j :: 0 <= i < j < |s.queue| ==> s.queue[i] < s.queue[j]
  }

  lemma QueueMoves(s: State, a: Action, s': State)
    requires Inv(s) && Step(s, a, s')
    ensures s'.queue == s.queue || (s.queue != [] && s'.queue == s.queue[1..]) || s'.queue == s.queue + [s.clock]
    ensures s.queue != [] && s'.queue == s.queue[1..] && s'.queue != s.queue ==>
      s.queue[0] in s'.running && s'.running[s.queue[0]].start == s.clock
    ensures s.clock <= s'.clock
    ensures forall x :: x in s'.running ==> s'.running[x].start < s'.clock
    ensures forall x :: x in s'.running && x < s.clock && x !in s.queue ==> x in s.running && s'.running[x] == s.running[x]
    ensures forall x :: x in s.queue && x in s'.queue ==> x !in s'.running
  {
    StepKept(s, a, s');
    forall x | x in s'.running ensures s'.running[x].start < s'.clock {
      RunningBeganLater(s', x);
    }
    forall x | x in s'.queue ensures x !in s'.running {
      assert TaskOk(s', x);
    }
  }

  lemma OrderStays(s: State, s': State)
    requires QueueInOrder(s) && TasksOk(s)
    requires s'.queue == s.queue || (s.queue != [] && s'.queue == s.queue[1..]) || s'.queue == s.queue + [s.clock]
    ensures QueueInOrder(s')
  {
    forall i | 0 <= i < |s.queue| ensures s.queue[i] < s.clock {
      assert TaskOk(s, s.queue[i]);
    }
  }

  lemma {:induction false} QueueIsFifo(run: seq<State>, i: nat)
    requires IsRun(run) && i < |run|
    ensures QueueInOrder(run[i])
  {
    if i > 0 {
      QueueIsFifo(run, i - 1);
      RunKept(run, i - 1);
      assert Next(run[i - 1], run[i]);
      var a :| Step(run[i - 1], a, run[i]);
      QueueMoves(run[i - 1], a, run[i]);
      OrderStays(run[i - 1], run[i]);
    }
  }

  /** Of two tasks that have both been queued, x before y: y leaves the queue only after x, and begins only
      after x. */
  ghost predicate InOrder(s: State, x: Task, y: Task) {
    && x < y < s.clock
    && (x in s.queue ==> y in s.queue)
    && (x in s.running && y in s.running ==> s.running[x].start < s.running[y].start)
  }

  lemma OrderKept(s: State, a: Action, s': State, x: Task, y: Task)
    requires Inv(s) && QueueInOrder(s) && Step(s, a, s') && InOrder(s, x, y)
    ensures InOrder(s', x, y)
  {
    QueueMoves(s, a, s');
    assert y in s.queue ==> y !in s.running by {
      assert TaskOk(s, y);
    }
    assert x in s.running ==> s.running[x].start < s.clock by {
      if x in s.running {
        RunningBeganLater(s, x);
      }
    }
  }

  /** First in, first out: of two tasks queued at the same time, the one submitted first is taken first
      and begins first. */
  lemma {:induction false} TasksStartInOrder(run: seq<State>, i: nat, k: nat, x: Task, y: Task)
    requires IsRun(run) && i <= k < |run| && x in run[i].queue && y in run[i].queue && x < y
    ensures InOrder(run[k], x, y)
  {
    if i < k {
      TasksStartInOrder(run, i, k - 1, x, y);
      RunKept(run, k - 1);
      QueueIsFifo(run, k - 1);
      assert Next(run[k - 1], run[k]);
      var a :| Step(run[k - 1], a, run[k]);
      OrderKept(run[k - 1], a, run[k], x, y);
    } else {
      RunKept(run, i);
      assert TaskOk(run[i], x) && TaskOk(run[i], y);
    }
  }

  // ---- a loaded queue ----

  /** The queue never holds more than 16 tasks per pool thread, and one: a submission that finds more than
      16 per thread is run at once, and any other is queued. */
  lemma {:induction false} QueueIsBounded(run: seq<State>, i: nat)
    requires IsRun(run) && i < |run|
    ensures |run[i].queue| <= 16 * |run[i].pool| + 1
    ensures i > 0 && |run[i].queue| > |run[i - 1].queue| ==> |run[i - 1].queue| <= 16 * |run[i].pool|
  {
    if i > 0 {
      QueueIsBounded(run, i - 1);
      RunKept(run, i - 1);
      assert Next(run[i - 1], run[i]);
      var a :| Step(run[i - 1], a, run[i]);
      QueueMoves(run[i - 1], a, run[i]);
    }
  }

  lemma OnlySubmitsAdd(s: State, a: Action, s': State, x: Task)
    requires Step(s, a, s') && x !in s.live && x in s'.live
    ensures x == s.clock && (a.ASubmitQueued? || a.ASubmitInline?)
  {
  }

  lemma SubmitChoice(s: State, a: Action, s': State)
    requires Inv(s) && Step(s, a, s') && (a.ASubmitQueued? || a.ASubmitInline?)
    ensures if |s.queue| > 16 * |s.pool|
      then s'.queue == s.queue && s.clock in s'.running && s'.running[s.clock].host == a.t
      else s'.queue == s.queue + [s.clock] && s.clock !in s'.running
  {
    assert TaskOk(s, s.clock);
  }

  /** A task that is submitted either runs at once, on the thread that submits it, or goes to the end of the
      queue: by the load. */
  lemma SubmitsByLoad(run: seq<State>, i: nat) returns (t: Tid)
    requires IsRun(run) && i + 1 < |run| && run[i].clock in run[i + 1].live
    ensures InUserCode(run[i], t)
    ensures var s, s', task := run[i], run[i + 1], run[i].clock;
      if |s.queue| > 16 * |s.pool|
      then s'.queue == s.queue && task in s'.running && s'.running[task].host == t
      else s'.queue == s.queue + [task] && task !in s'.running
  {
    var k := i + 1;
    RunKept(run, i);
    assert TaskOk(run[i], run[i].clock);
    assert Next(run[k - 1], run[k]);
    var a :| Step(run[i], a, run[k]);
    OnlySubmitsAdd(run[i], a, run[k], run[i].clock);
    SubmitChoice(run[i], a, run[k]);
    t := a.t;
  }
}
