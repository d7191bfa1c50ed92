/** Every step of the fork/join pool keeps the invariant. */
module ForkJoinSteps {
  import opened ForkJoinPool
  import opened ForkJoinInvariants

  // ---- facts about one state ----

  /** A live task keeps its group busy and so the pool in use. */
  lemma LiveMeansInUse(s: State, task: Task)
    requires CountsOk(s) && TasksOk(s) && task in s.live
    ensures s.live[task] in s.work && s.work[s.live[task]] > 0 && s.useCount > 0
  {
    var g := s.live[task];
    assert TaskOk(s, task) && CountOk(s, g);
    assert task in TasksOf(s.live, g);
    assert g in Busy(s.work);
  }

  lemma QueuedMeansInUse(s: State)
    requires CountsOk(s) && TasksOk(s) && s.queue != []
    ensures s.useCount > 0
  {
    assert TaskOk(s, s.queue[0]);
    LiveMeansInUse(s, s.queue[0]);
  }

  /** A pool out of use has no task, queued or running. */
  lemma NothingLeft(s: State)
    requires TasksOk(s) && CountsOk(s) && s.useCount <= 0
    ensures s.stopped && s.live == map[] && s.queue == [] && s.running == map[] && Busy(s.work) == {} && s.useCount == 0
  {
    assert |s.queue| > 0 ==> s.queue[0] in s.queue;
    assert |Busy(s.work)| == 0;
    forall x ensures x !in s.live && x !in s.queue && x !in s.running {
      assert TaskOk(s, x);
      if x in s.live {
        LiveMeansInUse(s, x);
      }
    }
  }

  /** If everybody is awake and the pool is in use, some pool thread is a witness. */
  lemma AllAwakeWitness(s: State)
    requires StacksOk(s) && PoolOk(s) && s.useCount > 0
    requires forall t :: t in s.threads ==> !s.threads[t].asleep
    ensures Attended(s)
  {
    var t :| t in s.pool;
    assert StackOk(s, t);
    assert Witness(s, t);
  }

  /** A thread in its loop is a witness. */
  lemma LooperWitness(s: State, t: Tid)
    requires StacksOk(s) && KeepsLooping(s, t)
    ensures Witness(s, t)
  {
    assert StackOk(s, t);
    var stack := s.threads[t].stack;
    assert FrameOk(s, t, stack, |stack| - 1);
    if Top(s.threads[t]).Join? {
      assert JoinsBusy(s, stack[|stack| - 1]);
    }
  }

  lemma RunsOn(s: State, t: Tid)
    requires StacksOk(s) && Awake(s, t) && Top(s.threads[t]).Run?
    ensures var f := Top(s.threads[t]); var d := |s.threads[t].stack| - 1;
      && f.task in s.running && s.running[f.task] == Place(t, d, f.start) && d > 0
      && f.task in s.live && s.live[f.task] == f.group && f.group < f.start < s.clock
  {
    assert StackOk(s, t);
    assert FrameOk(s, t, s.threads[t].stack, |s.threads[t].stack| - 1);
  }

  lemma JoinsOn(s: State, t: Tid)
    requires StacksOk(s) && t in s.threads && s.threads[t].stack != [] && Top(s.threads[t]).Join?
    ensures |s.threads[t].stack| > 1
  {
    assert StackOk(s, t);
    assert FrameOk(s, t, s.threads[t].stack, |s.threads[t].stack| - 1);
  }

  // ---- starting a task ----

  /** What the state is apart from its queue and counts: what `Start` builds on. */
  ghost predicate ReadyToStart(s: State, s1: State, t: Tid, task: Task) {
    && Awake(s, t) && s1.threads == s.threads && s1.running == s.running && s1.pool == s.pool
    && s.clock <= s1.clock && s.work.Keys <= s1.work.Keys
    && task !in s.running && task in s1.live && s1.live[task] < s1.clock
    && (forall x :: x in s.live ==> x in s1.live && s1.live[x] == s.live[x])
  }

  lemma StartStacks(s: State, s1: State, t: Tid, task: Task)
    requires StacksOk(s) && ReadyToStart(s, s1, t, task)
    ensures StacksOk(Start(s1, t, task))
  {
    var s' := Start(s1, t, task);
    forall u | u in s'.threads ensures StackOk(s', u) {
      assert StackOk(s, u);
      if u == t {
        PushKept(s, s', t, Run(task, s1.live[task], s1.clock));
      } else {
        StackKept(s, s', u);
      }
    }
  }

  lemma StartPlaces(s: State, s1: State, t: Tid, task: Task)
    requires PlacesOk(s) && ReadyToStart(s, s1, t, task)
    ensures PlacesOk(Start(s1, t, task))
  {
    var s' := Start(s1, t, task);
    forall x | x in s'.running ensures RunningOk(s', x) {
      if x != task {
        assert RunningOk(s, x);
      }
    }
  }

  lemma StartSleepers(s: State, s1: State, t: Tid, task: Task)
    requires SleepersOk(s) && ReadyToStart(s, s1, t, task)
    requires s.useCount <= s1.useCount && forall g :: g in s.work && s.work[g] > 0 ==> g in s1.work && s1.work[g] > 0
    ensures SleepersOk(Start(s1, t, task))
  {
    var s' := Start(s1, t, task);
    forall u | u in s'.threads ensures SleeperOk(s', u) {
      assert SleeperOk(s, u);
    }
  }

  // ---- loops ----

  lemma TakeTasks(s: State, t: Tid)
    requires TasksOk(s) && CanTake(s, t)
    ensures TasksOk(Take(s, t)) && s.queue[0] !in s.running
  {
    var s' := Take(s, t);
    assert s.queue[0] in s.queue && TaskOk(s, s.queue[0]);
    forall x ensures x in s.queue <==> x == s.queue[0] || x in s'.queue {
      assert s.queue == [s.queue[0]] + s'.queue;
    }
    forall x | x in s'.queue ensures x != s.queue[0] {
      var i :| 0 <= i < |s'.queue| && s'.queue[i] == x;
      assert s.queue[i + 1] == x;
    }
    forall i, j | 0 <= i < j < |s'.queue| ensures s'.queue[i] != s'.queue[j] {
      assert s'.queue[i] == s.queue[i + 1] && s'.queue[j] == s.queue[j + 1];
    }
    forall x ensures TaskOk(s', x) {
      assert TaskOk(s, x);
    }
  }

  lemma TakeGroups(s: State, t: Tid)
    requires GroupsOk(s) && TasksOk(s) && CanTake(s, t)
    ensures GroupsOk(Take(s, t))
  {
    var s' := Take(s, t);
    forall g | g in s'.work ensures GroupOk(s', g) {
      assert GroupOk(s, g);
      assert s.queue == [s.queue[0]] + s'.queue;
    }
  }

  lemma TakeKept(s: State, t: Tid)
    requires Inv(s) && CanTake(s, t)
    ensures Inv(Take(s, t))
  {
    var s', task := Take(s, t), s.queue[0];
    var s1 := s.(queue := s.queue[1..]);
    TakeTasks(s, t);
    assert TaskOk(s, task) && GroupOk(s, s.live[task]);
    StartStacks(s, s1, t, task);
    StartPlaces(s, s1, t, task);
    StartSleepers(s, s1, t, task);
    TakeGroups(s, t);
    CountsKept(s, s');
    LooperWitness(s, t);
    WitnessKept(s, s', t);
  }

  lemma SleepKept(s: State, t: Tid)
    requires Inv(s) && CanSleep(s, t)
    ensures Inv(Sleep(s, t))
  {
    var s' := Sleep(s, t);
    StacksKept(s, s');
    PlacesKept(s, s');
    GroupsKept(s, s');
    TasksKept(s, s');
    CountsKept(s, s');
    forall u | u in s'.threads ensures SleeperOk(s', u) {
      assert SleeperOk(s, u);
    }
  }

  lemma WakeKept(s: State, t: Tid)
    requires Inv(s) && CanWake(s, t)
    ensures Inv(Wake(s, t))
  {
    var s' := Wake(s, t);
    StacksKept(s, s');
    PlacesKept(s, s');
    GroupsKept(s, s');
    TasksKept(s, s');
    CountsKept(s, s');
    SleepersKept(s, s');
    AttendedKept(s, s');
  }

  lemma ExitKept(s: State, t: Tid)
    requires Inv(s) && CanExit(s, t)
    ensures Inv(Exit(s, t))
  {
    var s' := Exit(s, t);
    NothingLeft(s);
    StacksKept(s, s');
    PlacesKept(s, s');
    GroupsKept(s, s');
    TasksKept(s, s');
    CountsKept(s, s');
    SleepersKept(s, s');
  }

  lemma ReturnStacks(s: State, t: Tid)
    requires StacksOk(s) && PlacesOk(s) && CanReturn(s, t)
    ensures StacksOk(Return(s, t)) && PlacesOk(Return(s, t))
  {
    var s' := Return(s, t);
    JoinsOn(s, t);
    forall u | u in s'.threads ensures StackOk(s', u) {
      assert StackOk(s, u);
      if u == t {
        PopKept(s, s', t);
      } else {
        StackKept(s, s', u);
      }
    }
    forall x | x in s'.running ensures RunningOk(s', x) {
      assert RunningOk(s, x);
    }
  }

  lemma ReturnKept(s: State, t: Tid)
    requires Inv(s) && CanReturn(s, t)
    ensures Inv(Return(s, t))
  {
    var s' := Return(s, t);
    ReturnStacks(s, t);
    JoinsOn(s, t);
    GroupsKept(s, s');
    TasksKept(s, s');
    CountsKept(s, s');
    SleepersKept(s, s');
    AttendedKept(s, s');
  }

  // ---- user code ----

  lemma ForkCounts(s: State, t: Tid)
    requires CountsOk(s) && TasksOk(s) && GroupsOk(s) && CanFork(s, t)
    ensures CountsOk(Fork(s, t))
  {
    var s' := Fork(s, t);
    assert s.clock in s.work ==> GroupOk(s, s.clock);
    forall x ensures x !in TasksOf(s.live, s.clock) {
      assert TaskOk(s, x);
    }
    assert TasksOf(s.live, s.clock) == {};
    BusyChanged(s.work, s.clock, 0);
    forall g | g in s'.work ensures CountOk(s', g) {
      assert g in s.work ==> CountOk(s, g);
    }
  }

  lemma ForkGroups(s: State, t: Tid)
    requires StacksOk(s) && GroupsOk(s) && TasksOk(s) && CanFork(s, t)
    ensures GroupsOk(Fork(s, t))
  {
    var s' := Fork(s, t);
    if Top(s.threads[t]).Run? {
      RunsOn(s, t);
      assert TaskOk(s, Top(s.threads[t]).task);
    }
    forall g | g in s'.work ensures GroupOk(s', g) {
      assert g in s.work ==> GroupOk(s, g);
    }
  }

  lemma ForkKept(s: State, t: Tid)
    requires Inv(s) && CanFork(s, t)
    ensures Inv(Fork(s, t))
  {
    var s' := Fork(s, t);
    assert s.clock in s.work ==> GroupOk(s, s.clock);
    ForkCounts(s, t);
    ForkGroups(s, t);
    StacksKept(s, s');
    PlacesKept(s, s');
    TasksKept(s, s');
    SleepersKept(s, s');
    AttendedKept(s, s');
  }

  lemma BeginJoinStacks(s: State, t: Tid, g: Group)
    requires StacksOk(s) && PlacesOk(s) && GroupsOk(s) && CanJoin(s, t, g)
    ensures StacksOk(BeginJoin(s, t, g)) && PlacesOk(BeginJoin(s, t, g))
  {
    var s' := BeginJoin(s, t, g);
    if Top(s.threads[t]).Run? {
      RunsOn(s, t);
    }
    assert GroupOk(s, g);
    forall u | u in s'.threads ensures StackOk(s', u) {
      assert StackOk(s, u);
      if u == t {
        PushKept(s, s', t, Join(g));
      } else {
        StackKept(s, s', u);
      }
    }
    forall x | x in s'.running ensures RunningOk(s', x) {
      assert RunningOk(s, x);
    }
  }

  lemma BeginJoinKept(s: State, t: Tid, g: Group)
    requires Inv(s) && CanJoin(s, t, g)
    ensures Inv(BeginJoin(s, t, g))
  {
    var s' := BeginJoin(s, t, g);
    BeginJoinStacks(s, t, g);
    GroupsKept(s, s');
    TasksKept(s, s');
    CountsKept(s, s');
    SleepersKept(s, s');
    AttendedKept(s, s');
  }

  /** The counts after a submission. */
  lemma WorkStartedCounts(s: State, s1: State, task: Task, g: Group)
    requires CountsOk(s) && task !in s.live && g in s.work
    requires s1.work == s.work && s1.useCount == s.useCount && s1.live == s.live && s1.stopped == s.stopped
    ensures CountsOk(WorkStarted(s1, task, g))
  {
    var s' := WorkStarted(s1, task, g);
    forall h | h in s'.work ensures CountOk(s', h) {
      assert CountOk(s, h);
      TaskAdded(s.live, task, g, h);
    }
    BusyChanged(s.work, g, s.work[g] + 1);
  }

  /** Whoever may submit does so while the pool is in use. */
  lemma SubmitterInUse(s: State, t: Tid, g: Group)
    requires StacksOk(s) && TasksOk(s) && CountsOk(s) && MaySubmit(s, t, g)
    ensures s.useCount > 0
  {
    if Top(s.threads[t]).Run? {
      RunsOn(s, t);
      LiveMeansInUse(s, Top(s.threads[t]).task);
    }
  }

  lemma SubmitQueuedTasks(s: State, t: Tid, g: Group, woken: set<Tid>)
    requires TasksOk(s) && GroupsOk(s) && CanSubmitQueued(s, t, g, woken)
    ensures var s' := SubmitQueued(s, t, g, woken); TasksOk(s') && GroupsOk(s')
  {
    var s' := SubmitQueued(s, t, g, woken);
    forall i, j | 0 <= i < j < |s'.queue| ensures s'.queue[i] != s'.queue[j] {
      assert TaskOk(s, s.queue[i]);
    }
    forall x ensures TaskOk(s', x) {
      assert TaskOk(s, x);
    }
    GroupsKept(s, s');
  }

  lemma SubmitQueuedWitness(s: State, t: Tid, g: Group, woken: set<Tid>)
    requires StacksOk(s) && SleepersOk(s) && CanSubmitQueued(s, t, g, woken)
    requires var s' := SubmitQueued(s, t, g, woken); StacksOk(s') && PoolOk(s') && s'.useCount > 0
    ensures Attended(SubmitQueued(s, t, g, woken))
  {
    var s' := SubmitQueued(s, t, g, woken);
    if woken != {} {
      var w :| w in woken;
      assert s.threads[w].asleep && SleeperOk(s, w);
      assert StackOk(s, w) && StackOk(s', w);
      assert KeepsLooping(s', w);
      LooperWitness(s', w);
    } else {
      AllAwakeWitness(s');
    }
  }

  lemma SubmitQueuedKept(s: State, t: Tid, g: Group, woken: set<Tid>)
    requires Inv(s) && CanSubmitQueued(s, t, g, woken)
    ensures Inv(SubmitQueued(s, t, g, woken))
  {
    var s' := SubmitQueued(s, t, g, woken);
    SubmitQueuedTasks(s, t, g, woken);
    assert TaskOk(s, s.clock);
    var s1 := s.(queue := s.queue + [s.clock], clock := s.clock + 1);
    WorkStartedCounts(s, s1, s.clock, g);
    CountsKept(WorkStarted(s1, s.clock, g), s');
    SubmitterInUse(s, t, g);
    StacksKept(s, s');
    PlacesKept(s, s');
    SleepersKept(s, s');
    SubmitQueuedWitness(s, t, g, woken);
  }

  lemma SubmitInlineTasks(s: State, t: Tid, g: Group)
    requires TasksOk(s) && GroupsOk(s) && CanSubmitInline(s, t, g)
    ensures TasksOk(SubmitInline(s, t, g)) && GroupsOk(SubmitInline(s, t, g))
  {
    var s' := SubmitInline(s, t, g);
    forall x ensures TaskOk(s', x) {
      assert TaskOk(s, x);
    }
    forall h | h in s'.work ensures GroupOk(s', h) {
      assert GroupOk(s, h);
    }
  }

  lemma SubmitInlineKept(s: State, t: Tid, g: Group)
    requires Inv(s) && CanSubmitInline(s, t, g)
    ensures Inv(SubmitInline(s, t, g))
  {
    var s', task := SubmitInline(s, t, g), s.clock;
    var s1 := WorkStarted(s.(clock := s.clock + 1), task, g);
    assert TaskOk(s, task);
    assert GroupOk(s, g);
    StartStacks(s, s1, t, task);
    StartPlaces(s, s1, t, task);
    StartSleepers(s, s1, t, task);
    WorkStartedCounts(s, s.(clock := s.clock + 1), task, g);
    CountsKept(s1, s');
    SubmitterInUse(s, t, g);
    SubmitInlineTasks(s, t, g);
    AttendedKept(s, s');
  }

  // ---- finishing and stopping ----

  lemma FinishPlaces(s: State, t: Tid)
    requires StacksOk(s) && PlacesOk(s) && CanFinish(s, t)
    ensures PlacesOk(Finish(s, t))
  {
    var s' := Finish(s, t);
    RunsOn(s, t);
    forall x | x in s'.running ensures RunningOk(s', x) {
      assert RunningOk(s, x);
    }
  }

  lemma FinishStacks(s: State, t: Tid)
    requires StacksOk(s) && PlacesOk(s) && CanFinish(s, t)
    ensures StacksOk(Finish(s, t))
  {
    var s', f := Finish(s, t), Top(s.threads[t]);
    RunsOn(s, t);
    forall u | u in s'.threads ensures StackOk(s', u) {
      assert StackOk(s, u);
      if u == t {
        PopKept(s, s', t);
      } else {
        StackKept(s, s', u);
      }
    }
  }

  lemma FinishCounts(s: State, t: Tid)
    requires StacksOk(s) && CountsOk(s) && CanFinish(s, t)
    ensures CountsOk(Finish(s, t))
  {
    var s', f := Finish(s, t), Top(s.threads[t]);
    RunsOn(s, t);
    forall h | h in s'.work ensures CountOk(s', h) {
      assert CountOk(s, h);
      TaskRemoved(s.live, f.task, h);
    }
    BusyChanged(s.work, f.group, s.work[f.group] - 1);
  }

  lemma FinishTasks(s: State, t: Tid)
    requires StacksOk(s) && TasksOk(s) && GroupsOk(s) && CanFinish(s, t)
    ensures TasksOk(Finish(s, t)) && GroupsOk(Finish(s, t))
  {
    var s' := Finish(s, t);
    RunsOn(s, t);
    forall x ensures TaskOk(s', x) {
      assert TaskOk(s, x);
    }
    GroupsKept(s, s');
  }

  lemma FinishSleepers(s: State, t: Tid)
    requires SleepersOk(s) && CanFinish(s, t)
    ensures SleepersOk(Finish(s, t))
  {
    var s' := Finish(s, t);
    forall u | u in s'.threads ensures SleeperOk(s', u) {
      assert SleeperOk(s, u);
    }
  }

  lemma FinishAttended(s: State, t: Tid)
    requires Attended(s) && PoolOk(s) && CanFinish(s, t)
    requires var s' := Finish(s, t); StacksOk(s') && PoolOk(s') && (s'.queue != [] ==> s'.useCount > 0)
    ensures Attended(Finish(s, t))
  {
    var s' := Finish(s, t);
    if s'.queue != [] {
      if s'.work[Top(s.threads[t]).group] == 0 {
        AllAwakeWitness(s');
      } else {
        var w :| Witness(s, w);
        assert StackOk(s', w);
        WitnessKept(s, s', w);
      }
    }
  }

  lemma FinishKept(s: State, t: Tid)
    requires Inv(s) && CanFinish(s, t)
    ensures Inv(Finish(s, t))
  {
    var s' := Finish(s, t);
    FinishStacks(s, t);
    FinishPlaces(s, t);
    FinishCounts(s, t);
    FinishTasks(s, t);
    FinishSleepers(s, t);
    if s'.queue != [] {
      QueuedMeansInUse(s');
    }
    RunsOn(s, t);
    LiveMeansInUse(s, Top(s.threads[t]).task);
    FinishAttended(s, t);
  }

  lemma StopKept(s: State, t: Tid)
    requires Inv(s) && CanStop(s, t)
    ensures Inv(Stop(s))
  {
    var s' := Stop(s);
    StacksKept(s, s');
    PlacesKept(s, s');
    GroupsKept(s, s');
    TasksKept(s, s');
    CountsKept(s, s');
    forall u | u in s'.threads ensures SleeperOk(s', u) {}
    if s'.queue != [] {
      QueuedMeansInUse(s');
      AllAwakeWitness(s');
    }
  }
}
