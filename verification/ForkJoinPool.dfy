/** The fork/join pool as atomic steps.

    Every region the code runs under the pool's mutex is one step.  A thread is a stack of
    frames, because a thread that joins a group borrows queued tasks while it waits; any
    number of pool threads and of threads outside the pool take steps in any order.
    One condition variable is shared by workers and joiners, and a sleeping thread may also
    wake for no reason. */
module ForkJoinPool {

  type Tid = nat
  type Task = nat
  type Group = nat

  /** A stack grows at its end.  `start` is auxiliary: when the task began to run. */
  datatype Frame =
    | Worker
    | External
    | Run(task: Task, group: Group, start: nat)
    | Join(group: Group)

  datatype Thread = Thread(stack: seq<Frame>, asleep: bool)

  /** The code that created a group: a task, or a thread outside the pool. */
  datatype Creator = ByTask(task: Task) | ByThread(t: Tid)

  /** Auxiliary: the frame in which a task runs. */
  datatype Place = Place(host: Tid, depth: nat, start: nat)

  /** `work` is each group's work count and `useCount` the pool's use count.  Auxiliary: `clock`
      ticks at every event and supplies names; `live` are the tasks submitted and not finished. */
  datatype State = State(
    queue: seq<Task>,
    threads: map<Tid, Thread>,
    work: map<Group, nat>,
    useCount: int,
    stopped: bool,
    pool: set<Tid>,
    creator: map<Group, Creator>,
    // auxiliary
    clock: nat,
    live: map<Task, Group>,
    running: map<Task, Place>)

  function Top(th: Thread): Frame {
    if th.stack == [] then External else th.stack[|th.stack| - 1]
  }

  function Push(th: Thread, f: Frame): Thread {
    th.(stack := th.stack + [f])
  }

  function Pop(th: Thread): Thread {
    if th.stack == [] then th else th.(stack := th.stack[..|th.stack| - 1])
  }

  predicate Awake(s: State, t: Tid) {
    t in s.threads && s.threads[t].stack != [] && !s.threads[t].asleep
  }

  /** The thread executes a task's code or code outside the pool. */
  predicate InUserCode(s: State, t: Tid) {
    Awake(s, t) && (Top(s.threads[t]).Run? || Top(s.threads[t]).External?)
  }

  // ---- the loops of the workers and of join ----

  /** The loop condition of the frame on top: the pool is in use, or the group has work left. */
  predicate KeepsLooping(s: State, t: Tid) {
    && Awake(s, t)
    && match Top(s.threads[t])
       case Worker => s.useCount > 0
       case Join(g) => g in s.work && s.work[g] > 0
       case _ => false
  }

  predicate CanTake(s: State, t: Tid) {
    KeepsLooping(s, t) && s.queue != [] && s.queue[0] in s.live
  }

  /** Takes the front of the queue and starts to run it. */
  function Take(s: State, t: Tid): State
    requires CanTake(s, t)
  {
    var task := s.queue[0];
    Start(s.(queue := s.queue[1..]), t, task)
  }

  function Start(s: State, t: Tid, task: Task): State
    requires t in s.threads && task in s.live
  {
    s.(threads := s.threads[t := Push(s.threads[t], Run(task, s.live[task], s.clock))],
       running := s.running[task := Place(t, |s.threads[t].stack|, s.clock)],
       clock := s.clock + 1)
  }

  predicate CanSleep(s: State, t: Tid) {
    KeepsLooping(s, t) && s.queue == []
  }

  function Sleep(s: State, t: Tid): State
    requires CanSleep(s, t)
  {
    s.(threads := s.threads[t := s.threads[t].(asleep := true)])
  }

  predicate CanWake(s: State, t: Tid) {
    t in s.threads && s.threads[t].asleep
  }

  /** A wake-up, by a notification or spurious. */
  function Wake(s: State, t: Tid): State
    requires CanWake(s, t)
  {
    s.(threads := s.threads[t := s.threads[t].(asleep := false)])
  }

  predicate CanExit(s: State, t: Tid) {
    Awake(s, t) && Top(s.threads[t]).Worker? && s.useCount <= 0
  }

  function Exit(s: State, t: Tid): State {
    s.(threads := s.threads - {t})
  }

  predicate CanReturn(s: State, t: Tid) {
    Awake(s, t) && Top(s.threads[t]).Join? && Top(s.threads[t]).group in s.work && s.work[Top(s.threads[t]).group] == 0
  }

  /** `join` returns. */
  function Return(s: State, t: Tid): State
    requires CanReturn(s, t)
  {
    s.(threads := s.threads[t := Pop(s.threads[t])])
  }

  // ---- what user code does ----

  function Me(s: State, t: Tid): Creator
    requires InUserCode(s, t)
  {
    if Top(s.threads[t]).Run? then ByTask(Top(s.threads[t]).task) else ByThread(t)
  }

  predicate CanFork(s: State, t: Tid) {
    InUserCode(s, t)
  }

  /** Creates an executor, that is a new group without work. */
  function Fork(s: State, t: Tid): State
    requires CanFork(s, t)
  {
    s.(work := s.work[s.clock := 0], creator := s.creator[s.clock := Me(s, t)], clock := s.clock + 1)
  }

  /** Code joins only groups that it has created. */
  predicate CanJoin(s: State, t: Tid, g: Group) {
    InUserCode(s, t) && g in s.work && g in s.creator && s.creator[g] == Me(s, t)
  }

  function BeginJoin(s: State, t: Tid, g: Group): State
    requires CanJoin(s, t, g)
  {
    s.(threads := s.threads[t := Push(s.threads[t], Join(g))])
  }

  function WorkStarted(s: State, task: Task, g: Group): State
    requires g in s.work
  {
    s.(work := s.work[g := s.work[g] + 1],
       useCount := if s.work[g] == 0 then s.useCount + 1 else s.useCount,
       live := s.live[task := g])
  }

  /** Tasks may submit at any time; code outside the pool not once the pool is stopping. */
  predicate MaySubmit(s: State, t: Tid, g: Group) {
    InUserCode(s, t) && g in s.work && (Top(s.threads[t]).External? ==> !s.stopped)
  }

  /** The queue is loaded: more than 16 tasks per pool thread. */
  predicate Loaded(s: State) {
    |s.queue| > |s.pool| * 16
  }

  predicate CanSubmitQueued(s: State, t: Tid, g: Group, woken: set<Tid>) {
    && MaySubmit(s, t, g) && !Loaded(s)
    && NotifiesOne(s, woken)
  }

  /** notify_one wakes one waiting thread, if there is one; it may be a worker or a joiner. */
  predicate NotifiesOne(s: State, woken: set<Tid>) {
    if forall w :: w in s.threads ==> !s.threads[w].asleep then woken == {}
    else |woken| == 1 && forall w :: w in woken ==> w in s.threads && s.threads[w].asleep
  }

  function SubmitQueued(s: State, t: Tid, g: Group, woken: set<Tid>): State
    requires CanSubmitQueued(s, t, g, woken)
  {
    var task := s.clock;
    var s1 := WorkStarted(s.(queue := s.queue + [task], clock := s.clock + 1), task, g);
    Notify(s1, woken)
  }

  function Notify(s: State, woken: set<Tid>): State {
    s.(threads := map w | w in s.threads :: if w in woken then s.threads[w].(asleep := false) else s.threads[w])
  }

  predicate CanSubmitInline(s: State, t: Tid, g: Group) {
    MaySubmit(s, t, g) && Loaded(s)
  }

  /** The submitting thread runs the task itself, at once. */
  function SubmitInline(s: State, t: Tid, g: Group): State
    requires CanSubmitInline(s, t, g)
  {
    var task := s.clock;
    Start(WorkStarted(s.(clock := s.clock + 1), task, g), t, task)
  }

  predicate CanFinish(s: State, t: Tid) {
    Awake(s, t) && Top(s.threads[t]).Run? && Top(s.threads[t]).group in s.work && s.work[Top(s.threads[t]).group] > 0
  }

  /** A task is done.  When its group has none left, everybody is notified. */
  function Finish(s: State, t: Tid): State
    requires CanFinish(s, t)
  {
    var f := Top(s.threads[t]);
    var s1 := s.(threads := s.threads[t := Pop(s.threads[t])],
                 work := s.work[f.group := s.work[f.group] - 1],
                 live := s.live - {f.task}, running := s.running - {f.task});
    if s1.work[f.group] == 0 then Notify(s1.(useCount := s1.useCount - 1), s1.threads.Keys) else s1
  }

  predicate CanStop(s: State, t: Tid) {
    Awake(s, t) && Top(s.threads[t]).External? && !s.stopped
  }

  /** stop_threads, called once by the destructor. */
  function Stop(s: State): State {
    Notify(s.(useCount := s.useCount - 1, stopped := true), s.threads.Keys)
  }

  // ---- runs ----

  datatype Action =
    | ATake(t: Tid)
    | ASleep(t: Tid)
    | AWake(t: Tid)
    | AExit(t: Tid)
    | AReturn(t: Tid)
    | AFork(t: Tid)
    | ABeginJoin(t: Tid, g: Group)
    | ASubmitQueued(t: Tid, g: Group, woken: set<Tid>)
    | ASubmitInline(t: Tid, g: Group)
    | AFinish(t: Tid)
    | AStop(t: Tid)

  ghost predicate Step(s: State, a: Action, s': State) {
    match a
    case ATake(t) => CanTake(s, t) && s' == Take(s, t)
    case ASleep(t) => CanSleep(s, t) && s' == Sleep(s, t)
    case AWake(t) => CanWake(s, t) && s' == Wake(s, t)
    case AExit(t) => CanExit(s, t) && s' == Exit(s, t)
    case AReturn(t) => CanReturn(s, t) && s' == Return(s, t)
    case AFork(t) => CanFork(s, t) && s' == Fork(s, t)
    case ABeginJoin(t, g) => CanJoin(s, t, g) && s' == BeginJoin(s, t, g)
    case ASubmitQueued(t, g, woken) => CanSubmitQueued(s, t, g, woken) && s' == SubmitQueued(s, t, g, woken)
    case ASubmitInline(t, g) => CanSubmitInline(s, t, g) && s' == SubmitInline(s, t, g)
    case AFinish(t) => CanFinish(s, t) && s' == Finish(s, t)
    case AStop(t) => CanStop(s, t) && s' == Stop(s)
  }

  ghost predicate Next(s: State, s': State) {
    exists a :: Step(s, a, s')
  }

  /** At least one pool thread at its loop; every other thread runs code outside the pool. */
  ghost predicate Init(s: State) {
    && s.pool != {} && s.pool <= s.threads.Keys
    && (forall t :: t in s.threads ==> s.threads[t] == Thread([if t in s.pool then Worker else External], false))
    && s.queue == [] && s.work == map[] && s.creator == map[] && s.live == map[] && s.running == map[]
    && s.useCount == 1 && !s.stopped
  }

  ghost predicate IsRun(run: seq<State>) {
    && |run| > 0 && Init(run[0])
    && forall i {:trigger Next(run[i - 1], run[i])} :: 0 < i < |run| ==> Next(run[i - 1], run[i])
  }
}
