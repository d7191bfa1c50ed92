/** What every step of the fork/join pool keeps. */
module ForkJoinInvariants {
  import opened ForkJoinPool

  // ---- the invariant ----

  ghost predicate Inv(s: State) {
    && StacksOk(s)
    && GroupsOk(s)
    && TasksOk(s)
    && PlacesOk(s)
    && CountsOk(s)
    && SleepersOk(s)
    && PoolOk(s)
    && Attended(s)
  }

  ghost predicate StacksOk(s: State) {
    forall t {:trigger StackOk(s, t)} :: t in s.threads ==> StackOk(s, t)
  }

  ghost predicate StackOk(s: State, t: Tid)
    requires t in s.threads
  {
    var th := s.threads[t];
    && th.stack != [] && th.stack[0] == (if t in s.pool then Worker else External)
    && (forall i :: 0 <= i < |th.stack| ==> FrameOk(s, t, th.stack, i))
    && (forall i, j :: 0 <= i < j < |th.stack| && th.stack[i].Run? && th.stack[j].Run? ==> th.stack[i].start < th.stack[j].start)
    && (th.asleep ==> Top(th).Worker? || Top(th).Join?)
  }

  /** A task knows its frame, and began after its group was created; a join stands directly on the
      code that created the group, which, if it is a task, had begun before that. */
  ghost predicate FrameOk(s: State, t: Tid, stack: seq<Frame>, i: nat)
    requires i < |stack|
  {
    match stack[i]
    case Worker => i == 0
    case External => i == 0
    case Run(task, g, start) =>
      && i > 0 && task in s.running && s.running[task] == Place(t, i, start)
      && task in s.live && s.live[task] == g && g < start < s.clock
    case Join(g) =>
      && i > 0 && g in s.work
      && (stack[i - 1].External? || (stack[i - 1].Run? && stack[i - 1].start < g))
  }

  ghost predicate GroupsOk(s: State) {
    && s.creator.Keys == s.work.Keys
    && forall g {:trigger GroupOk(s, g)} :: g in s.work ==> GroupOk(s, g)
  }

  /** A task that has created a group has begun, and before the group existed. */
  ghost predicate GroupOk(s: State, g: Group) {
    && g < s.clock && g in s.creator
    && (s.creator[g].ByTask? ==>
         && s.creator[g].task < s.clock && s.creator[g].task !in s.queue
         && (s.creator[g].task in s.running ==> s.running[s.creator[g].task].start < g))
  }

  /** A live task is queued, once, or it runs in one frame of one thread. */
  ghost predicate TasksOk(s: State) {
    && (forall i, j :: 0 <= i < j < |s.queue| ==> s.queue[i] != s.queue[j])
    && forall task {:trigger TaskOk(s, task)} :: TaskOk(s, task)
  }

  ghost predicate TaskOk(s: State, task: Task) {
    && (task in s.live <==> task in s.queue || task in s.running)
    && (task in s.queue ==> task !in s.running)
    && (task in s.live ==> task < s.clock && s.live[task] in s.work)
  }

  ghost predicate PlacesOk(s: State) {
    forall task {:trigger RunningOk(s, task)} :: task in s.running ==> RunningOk(s, task)
  }

  ghost predicate RunningOk(s: State, task: Task)
    requires task in s.running
  {
    var p := s.running[task];
    && p.host in s.threads && p.depth < |s.threads[p.host].stack|
    && s.threads[p.host].stack[p.depth].Run? && s.threads[p.host].stack[p.depth].task == task
    && s.threads[p.host].stack[p.depth].start == p.start
  }

  ghost function TasksOf(live: map<Task, Group>, g: Group): set<Task> {
    set t | t in live && live[t] == g
  }

  ghost function Busy(work: map<Group, nat>): set<Group> {
    set g | g in work && work[g] > 0
  }

  /** A group's count is the number of its live tasks; the pool's is the number of busy groups,
      and one more until it is stopped. */
  ghost predicate CountsOk(s: State) {
    && (forall g {:trigger CountOk(s, g)} :: g in s.work ==> CountOk(s, g))
    && s.useCount == |Busy(s.work)| + if s.stopped then 0 else 1
  }

  ghost predicate CountOk(s: State, g: Group)
    requires g in s.work
  {
    s.work[g] == |TasksOf(s.live, g)|
  }

  /** A sleeping thread has something to wait for. */
  ghost predicate SleepersOk(s: State) {
    forall t {:trigger SleeperOk(s, t)} :: t in s.threads ==> SleeperOk(s, t)
  }

  ghost predicate SleeperOk(s: State, t: Tid)
    requires t in s.threads
  {
    s.threads[t].asleep ==> HasReason(s, Top(s.threads[t]))
  }

  ghost predicate HasReason(s: State, f: Frame) {
    && (f.Worker? ==> s.useCount > 0)
    && (f.Join? ==> f.group in s.work && s.work[f.group] > 0)
  }

  ghost predicate PoolOk(s: State) {
    s.pool != {} && (s.useCount > 0 ==> s.pool <= s.threads.Keys)
  }

  /** An awake thread that will look at the queue before it can leave: a pool thread, or one with
      a join under way for a group that still has work. */
  ghost predicate Witness(s: State, t: Tid) {
    && Awake(s, t)
    && (t in s.pool || exists i :: 0 <= i < |s.threads[t].stack| && JoinsBusy(s, s.threads[t].stack[i]))
  }

  /** A queued task is not stranded. */
  ghost predicate Attended(s: State) {
    s.queue != [] ==> exists t :: Witness(s, t)
  }

  ghost predicate JoinsBusy(s: State, f: Frame) {
    f.Join? && f.group in s.work && s.work[f.group] > 0
  }

  // ---- counting ----

  lemma TaskAdded(live: map<Task, Group>, task: Task, g: Group, h: Group)
    requires task !in live
    ensures |TasksOf(live[task := g], h)| == |TasksOf(live, h)| + if g == h then 1 else 0
  {
    var live' := live[task := g];
    if g == h {
      assert TasksOf(live', h) == TasksOf(live, h) + {task};
    } else {
      assert TasksOf(live', h) == TasksOf(live, h);
    }
  }

  lemma TaskRemoved(live: map<Task, Group>, task: Task, h: Group)
    requires task in live
    ensures |TasksOf(live - {task}, h)| == |TasksOf(live, h)| - if live[task] == h then 1 else 0
  {
    if live[task] == h {
      assert TasksOf(live, h) == TasksOf(live - {task}, h) + {task};
    } else {
      assert TasksOf(live, h) == TasksOf(live - {task}, h);
    }
  }

  lemma BusyChanged(work: map<Group, nat>, g: Group, n: nat)
    ensures var before, after := if g in work && work[g] > 0 then 1 else 0, if n > 0 then 1 else 0;
      |Busy(work[g := n])| == |Busy(work)| - before + after
  {
    var rest := Busy(work) - {g};
    assert Busy(work) == if g in work && work[g] > 0 then rest + {g} else rest;
    assert Busy(work[g := n]) == if n > 0 then rest + {g} else rest;
  }

  lemma SleepersKept(s: State, s': State)
    requires SleepersOk(s) && s.useCount <= s'.useCount
    requires forall g :: g in s.work && s.work[g] > 0 ==> g in s'.work && s'.work[g] > 0
    requires forall t :: t in s'.threads && s'.threads[t].asleep ==> t in s.threads && s'.threads[t] == s.threads[t]
    ensures SleepersOk(s')
  {
    forall t | t in s'.threads ensures SleeperOk(s', t) {
      if s'.threads[t].asleep {
        assert SleeperOk(s, t);
      }
    }
  }

  lemma GroupsKept(s: State, s': State)
    requires GroupsOk(s) && s'.work.Keys == s.work.Keys && s'.creator == s.creator && s.clock <= s'.clock
    requires forall task :: task in s'.queue ==> task in s.queue || task >= s.clock
    requires forall task :: task in s'.running ==>
      (task in s.running && s'.running[task] == s.running[task]) || (forall g :: g in s.creator ==> s.creator[g] != ByTask(task))
    ensures GroupsOk(s')
  {
    forall g | g in s'.work ensures GroupOk(s', g) {
      assert GroupOk(s, g);
    }
  }

  lemma TasksKept(s: State, s': State)
    requires TasksOk(s) && s'.queue == s.queue && s'.live == s.live && s'.running == s.running
    requires s.clock <= s'.clock && s.work.Keys <= s'.work.Keys
    ensures TasksOk(s')
  {
    forall task ensures TaskOk(s', task) {
      assert TaskOk(s, task);
    }
  }

  lemma CountsKept(s: State, s': State)
    requires CountsOk(s) && s'.work == s.work && s'.live == s.live
    requires s'.useCount - (if s'.stopped then 0 else 1) == s.useCount - (if s.stopped then 0 else 1)
    ensures CountsOk(s')
  {
    forall g | g in s'.work ensures CountOk(s', g) {
      assert CountOk(s, g);
    }
  }

  // ---- frames ----

  /** What a step must leave alone for the frames of thread `t` below `depth` to stay in order. */
  ghost predicate FramesUntouched(s: State, s': State, t: Tid, depth: nat) {
    && s'.pool == s.pool && s.clock <= s'.clock && s.work.Keys <= s'.work.Keys
    && forall task :: task in s.running && s.running[task].host == t && s.running[task].depth < depth ==>
         && task in s'.running && s'.running[task] == s.running[task]
         && (task in s.live ==> task in s'.live && s'.live[task] == s.live[task])
  }

  lemma FrameKept(s: State, s': State, t: Tid, stack: seq<Frame>, stack': seq<Frame>, i: nat, depth: nat)
    requires i < |stack| && i < |stack'| && i < depth && stack'[i] == stack[i] && (i > 0 ==> stack'[i - 1] == stack[i - 1])
    requires FrameOk(s, t, stack, i) && FramesUntouched(s, s', t, depth)
    ensures FrameOk(s', t, stack', i)
  {
  }

  /** A thread whose stack a step leaves alone keeps it in order. */
  lemma StackKept(s: State, s': State, t: Tid)
    requires t in s.threads && StackOk(s, t) && t in s'.threads && s'.threads[t].stack == s.threads[t].stack
    requires s'.threads[t].asleep && !s.threads[t].asleep ==> Top(s.threads[t]).Worker? || Top(s.threads[t]).Join?
    requires FramesUntouched(s, s', t, |s.threads[t].stack|)
    ensures StackOk(s', t)
  {
    var stack := s.threads[t].stack;
    forall i | 0 <= i < |stack| ensures FrameOk(s', t, stack, i) {
      FrameKept(s, s', t, stack, stack, i, |stack|);
    }
  }

  /** A push keeps the frames below, and is in order if the new frame is. */
  lemma PushKept(s: State, s': State, t: Tid, f: Frame)
    requires t in s.threads && StackOk(s, t)
    requires t in s'.threads && s'.threads[t] == Push(s.threads[t], f) && !s.threads[t].asleep
    requires FramesUntouched(s, s', t, |s.threads[t].stack|)
    requires FrameOk(s', t, s'.threads[t].stack, |s.threads[t].stack|)
    requires f.Run? ==> f.start >= s.clock
    ensures StackOk(s', t)
  {
    var stack, stack' := s.threads[t].stack, s'.threads[t].stack;
    forall i | 0 <= i < |stack'| ensures FrameOk(s', t, stack', i) {
      if i < |stack| {
        FrameKept(s, s', t, stack, stack', i, |stack|);
      }
    }
    forall i, j | 0 <= i < j < |stack'| && stack'[i].Run? && stack'[j].Run? ensures stack'[i].start < stack'[j].start {
      assert FrameOk(s, t, stack, i);
    }
  }

  /** A pop keeps the frames below. */
  lemma PopKept(s: State, s': State, t: Tid)
    requires t in s.threads && StackOk(s, t) && |s.threads[t].stack| > 1 && !s.threads[t].asleep
    requires t in s'.threads && s'.threads[t].stack == Pop(s.threads[t]).stack && !s'.threads[t].asleep
    requires FramesUntouched(s, s', t, |s.threads[t].stack| - 1)
    ensures StackOk(s', t)
  {
    var stack, stack' := s.threads[t].stack, s'.threads[t].stack;
    forall i | 0 <= i < |stack'| ensures FrameOk(s', t, stack', i) {
      FrameKept(s, s', t, stack, stack', i, |stack| - 1);
    }
  }

  // ---- frames for whole states ----

  /** Stacks and places are kept when no stack changes and no task ends. */
  ghost predicate StacksUntouched(s: State, s': State) {
    && s'.running == s.running && s'.pool == s.pool && s.clock <= s'.clock && s.work.Keys <= s'.work.Keys
    && (forall task :: task in s.live ==> task in s'.live && s'.live[task] == s.live[task])
    && (forall t :: t in s'.threads ==>
         && t in s.threads && s'.threads[t].stack == s.threads[t].stack
         && (s'.threads[t].asleep && !s.threads[t].asleep ==> Top(s.threads[t]).Worker? || Top(s.threads[t]).Join?))
  }

  lemma StacksKept(s: State, s': State)
    requires StacksOk(s) && StacksUntouched(s, s')
    ensures StacksOk(s')
  {
    forall t | t in s'.threads ensures StackOk(s', t) {
      assert StackOk(s, t);
      StackKept(s, s', t);
    }
  }

  lemma PlacesKept(s: State, s': State)
    requires PlacesOk(s) && s'.running.Keys <= s.running.Keys
    requires forall x :: x in s'.running ==> s'.running[x] == s.running[x]
    requires forall x :: x in s'.running && s.running[x].host in s.threads && s.running[x].depth < |s.threads[s.running[x].host].stack| ==>
      var p := s.running[x];
      p.host in s'.threads && p.depth < |s'.threads[p.host].stack| && s'.threads[p.host].stack[p.depth] == s.threads[p.host].stack[p.depth]
    ensures PlacesOk(s')
  {
    forall x | x in s'.running ensures RunningOk(s', x) {
      assert RunningOk(s, x);
    }
  }

  /** A witness remains one while it stays awake and its busy joins stay on its stack and busy. */
  lemma WitnessKept(s: State, s': State, t: Tid)
    requires Witness(s, t) && Awake(s', t) && s'.pool == s.pool
    requires forall i :: 0 <= i < |s.threads[t].stack| && JoinsBusy(s, s.threads[t].stack[i]) ==>
      i < |s'.threads[t].stack| && s'.threads[t].stack[i] == s.threads[t].stack[i] && JoinsBusy(s', s.threads[t].stack[i])
    ensures Witness(s', t)
  {
    if t !in s.pool {
      var i :| 0 <= i < |s.threads[t].stack| && JoinsBusy(s, s.threads[t].stack[i]);
      assert JoinsBusy(s', s'.threads[t].stack[i]);
    }
  }

  /** Nothing that a witness rests on is lost: the queue stays attended. */
  lemma AttendedKept(s: State, s': State)
    requires Attended(s) && (s'.queue != [] ==> s.queue != []) && s'.pool == s.pool
    requires forall t :: Awake(s, t) ==> Awake(s', t)
    requires forall t, i :: Awake(s, t) && 0 <= i < |s.threads[t].stack| && JoinsBusy(s, s.threads[t].stack[i]) ==>
      Awake(s', t) && i < |s'.threads[t].stack| && s'.threads[t].stack[i] == s.threads[t].stack[i] && JoinsBusy(s', s.threads[t].stack[i])
    ensures Attended(s')
  {
    if s'.queue != [] {
      var t :| Witness(s, t);
      WitnessKept(s, s', t);
    }
  }
}
