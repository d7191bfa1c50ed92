/** An echo connection as a coroutine under an edge-triggered event loop.

    Each action is one system call of the coroutine, one switch of control, one test of the
    event handler, or something the peer does, in any interleaving.  The kernel reports an edge
    when bytes arrive, when the peer closes, and when room appears after a send was refused. */
module CoroutineEcho {
  import opened Numbers

  const BUF_SIZE: nat := 64

  /** Where the coroutine is; `RecvAgain` and `SendAgain` have seen EAGAIN and are about to wait. */
  datatype Pc = InRecv | RecvAgain | InSend | SendAgain | Finished

  /** Who gets control back when the coroutine gives it up. */
  datatype Back = FromStart | FromOut(evIn: bool) | FromIn

  /** Who has control: the event loop, the handler before one of its two tests, or the coroutine. */
  datatype Control = AtLoop | AtOut(evOut: bool, evIn: bool) | AtIn(evIn: bool) | Running(back: Back) | Deleted

  datatype Socket = Socket(inq: seq<byte>, eof: bool, room: nat, blocked: bool, pendIn: bool, pendOut: bool)

  /** `arrived`, `received` and `sent` are auxiliary histories. */
  datatype State = State(
    control: Control,
    pc: Pc,
    recvWaiting: bool,
    sendWaiting: bool,
    exited: bool,
    buffer: seq<byte>,
    haveSent: nat,
    ret: int,
    sock: Socket,
    arrived: seq<byte>,
    received: seq<byte>,
    sent: seq<byte>)

  datatype Action =
    // the peer and the network
    | Arrive(bytes: seq<byte>)
    | PeerClose
    | FreeRoom(k: nat, edge: bool)
    // await_recv
    | RecvData(n: nat)
    | RecvEof
    | RecvError
    | RecvBlock
    | WaitRecv
    // await_send
    | SendSome(n: nat)
    | SendBlock
    | WaitSend
    | SendFail
    | SendDone
    // the event loop
    | Deliver(evIn: bool, evOut: bool, other: bool)
    | TestOut
    | TestIn

  // ---- the steps ----

  predicate Unsent(s: State) {
    s.haveSent < |s.buffer|
  }

  predicate CanRecv(s: State) {
    s.control.Running? && s.pc == InRecv
  }

  predicate CanSend(s: State) {
    s.control.Running? && s.pc == InSend && Unsent(s)
  }

  predicate Can(s: State, a: Action) {
    match a
    case Arrive(bytes) => bytes != [] && !s.sock.eof
    case PeerClose => true
    case FreeRoom(k, _) => k > 0
    case RecvData(n) => CanRecv(s) && 0 < n <= BUF_SIZE && n <= |s.sock.inq|
    case RecvEof => CanRecv(s) && s.sock.inq == [] && s.sock.eof
    case RecvError => CanRecv(s)
    case RecvBlock => CanRecv(s) && s.sock.inq == [] && !s.sock.eof
    case WaitRecv => s.control.Running? && s.pc == RecvAgain
    case SendSome(n) => CanSend(s) && 0 < n <= s.sock.room && s.haveSent + n <= |s.buffer|
    case SendBlock => CanSend(s) && s.sock.room == 0
    case WaitSend => s.control.Running? && s.pc == SendAgain
    case SendFail => CanSend(s)
    case SendDone => s.control.Running? && s.pc == InSend && !Unsent(s)
    case Deliver(evIn, evOut, _) => s.control.AtLoop? && (s.sock.pendIn ==> evIn) && (s.sock.pendOut ==> evOut)
    case TestOut => s.control.AtOut?
    case TestIn => s.control.AtIn?
  }

  /** The coroutine gives up control: the handler that resumed it reports an exit with -1, which
      deletes the connection; start() does not look. */
  function Yield(s: State): State
    requires s.control.Running?
  {
    match s.control.back
    case FromStart => s.(control := AtLoop)
    case FromOut(evIn) => s.(control := if s.exited then Deleted else AtIn(evIn))
    case FromIn => s.(control := if s.exited then Deleted else AtLoop)
  }

  function Exit(s: State): State
    requires s.control.Running?
  {
    Yield(s.(exited := true, pc := Finished))
  }

  function Do(s: State, a: Action): State
    requires Can(s, a)
  {
    match a
    case Arrive(bytes) => s.(sock := s.sock.(inq := s.sock.inq + bytes, pendIn := true), arrived := s.arrived + bytes)
    case PeerClose => s.(sock := s.sock.(eof := true, pendIn := true))
    case FreeRoom(k, edge) =>
      s.(sock := s.sock.(room := s.sock.room + k, blocked := false, pendOut := s.sock.pendOut || s.sock.blocked || edge))
    case RecvData(n) =>
      s.(pc := InSend, buffer := s.sock.inq[..n], haveSent := 0, ret := 0,
         sock := s.sock.(inq := s.sock.inq[n..]), received := s.received + s.sock.inq[..n])
    case RecvEof => Exit(s)
    case RecvError => Exit(s)
    case RecvBlock => s.(pc := RecvAgain)
    case WaitRecv => Yield(s.(pc := InRecv, recvWaiting := true))
    case SendSome(n) =>
      s.(haveSent := s.haveSent + n, sock := s.sock.(room := s.sock.room - n),
         sent := s.sent + s.buffer[s.haveSent..s.haveSent + n])
    case SendBlock => s.(pc := SendAgain, sock := s.sock.(blocked := true))
    case WaitSend => Yield(s.(pc := InSend, sendWaiting := true))
    case SendFail => s.(ret := -1)
    case SendDone => if s.ret < 0 then Exit(s) else s.(pc := InRecv)
    case Deliver(evIn, evOut, other) =>
      s.(control := if other then Deleted else AtOut(evOut, evIn), sock := s.sock.(pendIn := false, pendOut := false))
    case TestOut =>
      if s.control.evOut && s.sendWaiting then s.(sendWaiting := false, control := Running(FromOut(s.control.evIn)))
      else s.(control := AtIn(s.control.evIn))
    case TestIn =>
      if s.control.evIn && s.recvWaiting then s.(recvWaiting := false, control := Running(FromIn))
      else s.(control := AtLoop)
  }

  /** The connection has been registered, which reports what is ready, and start() runs the coroutine. */
  predicate Init(s: State) {
    && s.control == Running(FromStart) && s.pc == InRecv
    && !s.recvWaiting && !s.sendWaiting && !s.exited && s.buffer == [] && s.haveSent == 0
    && s.sock.inq == s.arrived && s.received == [] && s.sent == []
    && (s.arrived != [] || s.sock.eof ==> s.sock.pendIn) && (s.sock.room > 0 ==> s.sock.pendOut)
  }

  ghost predicate Next(s: State, s': State) {
    exists a :: Can(s, a) && s' == Do(s, a)
  }

  ghost predicate IsRun(run: seq<State>) {
    && |run| > 0 && Init(run[0])
    && forall i {:trigger Next(run[i - 1], run[i])} :: 0 < i < |run| ==> Next(run[i - 1], run[i])
  }

  // ---- the invariant ----

  predicate Suspended(s: State) {
    !s.control.Running? && !s.control.Deleted?
  }

  /** An input edge is pending, or in the hand of a handler that has yet to test it. */
  predicate InCovered(s: State) {
    || s.sock.pendIn
    || (s.control.AtOut? && s.control.evIn)
    || (s.control.AtIn? && s.control.evIn)
    || (s.control.Running? && s.control.back.FromOut? && s.control.back.evIn)
  }

  predicate OutCovered(s: State) {
    s.sock.pendOut || (s.control.AtOut? && s.control.evOut)
  }

  /** The coroutine waits in exactly one place when it does not run, and nowhere when it does. */
  predicate WaitsOnce(s: State) {
    && (s.exited <==> s.pc == Finished)
    && (s.recvWaiting ==> s.pc == InRecv) && (s.sendWaiting ==> s.pc == InSend)
    && (s.control.Running? ==> !s.recvWaiting && !s.sendWaiting && !s.exited)
    && (Suspended(s) ==> s.recvWaiting || s.sendWaiting || s.exited)
  }

  predicate InEdgesKept(s: State) {
    s.control != Deleted && (s.recvWaiting || s.pc == RecvAgain) && (s.sock.inq != [] || s.sock.eof) ==> InCovered(s)
  }

  predicate OutEdgesKept(s: State) {
    s.control != Deleted && (s.sendWaiting || s.pc == SendAgain) ==>
      Unsent(s) && if s.sock.room > 0 then OutCovered(s) else s.sock.blocked
  }

  predicate BytesKept(s: State) {
    && s.haveSent <= |s.buffer| <= BUF_SIZE
    && s.received == s.sent + s.buffer[s.haveSent..]
    && s.arrived == s.received + s.sock.inq
    && (s.pc == InRecv || s.pc == RecvAgain ==> !Unsent(s))
  }

  predicate Inv(s: State) {
    WaitsOnce(s) && InEdgesKept(s) && OutEdgesKept(s) && BytesKept(s)
  }

  lemma StepWaits(s: State, a: Action)
    requires WaitsOnce(s) && Can(s, a)
    ensures WaitsOnce(Do(s, a))
  {
  }

  lemma StepInEdges(s: State, a: Action)
    requires WaitsOnce(s) && InEdgesKept(s) && Can(s, a)
    ensures InEdgesKept(Do(s, a))
  {
  }

  lemma StepOutEdges(s: State, a: Action)
    requires WaitsOnce(s) && OutEdgesKept(s) && Can(s, a)
    ensures OutEdgesKept(Do(s, a))
  {
  }

  lemma Regroup(a: seq<byte>, b: seq<byte>, n: nat)
    requires n <= |b|
    ensures a + b == (a + b[..n]) + b[n..]
  {
    assert b == b[..n] + b[n..];
  }

  lemma RecvDataBytes(s: State, n: nat)
    requires BytesKept(s) && Can(s, RecvData(n))
    ensures BytesKept(Do(s, RecvData(n)))
  {
    Regroup(s.received, s.sock.inq, n);
    assert s.buffer[s.haveSent..] == [];
  }

  lemma SendSomeBytes(s: State, n: nat)
    requires BytesKept(s) && Can(s, SendSome(n))
    ensures BytesKept(Do(s, SendSome(n)))
  {
    var unsent := s.buffer[s.haveSent..];
    Regroup(s.sent, unsent, n);
    assert unsent[..n] == s.buffer[s.haveSent..s.haveSent + n] && unsent[n..] == s.buffer[s.haveSent + n..];
  }

  predicate MovesBytes(a: Action) {
    a.RecvData? || a.SendSome? || a.Arrive?
  }

  lemma SameBytes(s: State, a: Action)
    requires Can(s, a) && !MovesBytes(a)
    ensures var s' := Do(s, a);
      && s'.buffer == s.buffer && s'.haveSent == s.haveSent && s'.received == s.received && s'.sent == s.sent
      && s'.arrived == s.arrived && s'.sock.inq == s.sock.inq
      && (s'.pc == InRecv || s'.pc == RecvAgain ==> s.pc == InRecv || s.pc == RecvAgain || !Unsent(s))
  {
  }

  lemma ArriveBytes(s: State, a: Action)
    requires BytesKept(s) && Can(s, a) && a.Arrive?
    ensures BytesKept(Do(s, a))
  {
    assert s.received + (s.sock.inq + a.bytes) == s.received + s.sock.inq + a.bytes;
  }

  lemma StepBytes(s: State, a: Action)
    requires BytesKept(s) && Can(s, a) && (s.pc == RecvAgain ==> !Unsent(s))
    ensures BytesKept(Do(s, a))
  {
    match a
    case RecvData(n) => RecvDataBytes(s, n);
    case SendSome(n) => SendSomeBytes(s, n);
    case Arrive(_) => ArriveBytes(s, a);
    case _ => SameBytes(s, a);
  }

  lemma StepKept(s: State, a: Action)
    requires Inv(s) && Can(s, a)
    ensures Inv(Do(s, a))
  {
    StepWaits(s, a);
    StepInEdges(s, a);
    StepOutEdges(s, a);
    StepBytes(s, a);
  }

  lemma {:induction false} RunKept(run: seq<State>, i: nat)
    requires IsRun(run) && i < |run|
    ensures Inv(run[i])
  {
    if i > 0 {
      RunKept(run, i - 1);
      assert Next(run[i - 1], run[i]);
      var a :| Can(run[i - 1], a) && run[i] == Do(run[i - 1], a);
      StepKept(run[i - 1], a);
    }
  }

  // ---- what every run guarantees ----

  /** Whenever the event loop or the handler has control of a live connection, the coroutine waits
      to receive, or waits to send, or has exited: exactly one of the three. */
  lemma ExactlyOneWaits(run: seq<State>, i: nat)
    requires IsRun(run) && i < |run| && Suspended(run[i])
    ensures var s := run[i];
      && (s.recvWaiting || s.sendWaiting || s.exited)
      && !(s.recvWaiting && s.sendWaiting) && !(s.recvWaiting && s.exited) && !(s.sendWaiting && s.exited)
  {
    RunKept(run, i);
  }

  /** No edge is lost: back in the event loop, a coroutine that waits for what is already there has
      an edge pending, and one that waits for room has none of it without an edge. */
  lemma NoLostEdge(run: seq<State>, i: nat)
    requires IsRun(run) && i < |run| && run[i].control != Deleted
    ensures var s := run[i];
      && (s.recvWaiting && (s.sock.inq != [] || s.sock.eof) ==> InCovered(s))
      && (s.sendWaiting && s.sock.room > 0 ==> OutCovered(s))
      && (s.control == AtLoop && s.recvWaiting && (s.sock.inq != [] || s.sock.eof) ==> s.sock.pendIn)
      && (s.control == AtLoop && s.sendWaiting && s.sock.room > 0 ==> s.sock.pendOut)
  {
    RunKept(run, i);
  }

  /** The echo is a lossless queue: what arrived is what was sent, then what the buffer still holds,
      then what the socket still holds. */
  lemma EchoIsFifo(run: seq<State>, i: nat)
    requires IsRun(run) && i < |run|
    ensures var s := run[i];
      && s.haveSent <= |s.buffer| <= 64
      && s.arrived == s.sent + s.buffer[s.haveSent..] + s.sock.inq
  {
    RunKept(run, i);
  }

  /** A step that the connection takes by itself: no help from the peer, no report without an edge,
      and no failing call. */
  predicate Unaided(s: State, a: Action) {
    match a
    case Arrive(_) => false
    case PeerClose => false
    case FreeRoom(_, _) => false
    case RecvError => false
    case SendFail => false
    case Deliver(evIn, evOut, other) => (s.sock.pendIn || s.sock.pendOut) && !other
    case _ => true
  }

  /** At rest: nothing is pending and the coroutine waits. */
  predicate Quiescent(s: State) {
    s.control == AtLoop && !s.sock.pendIn && !s.sock.pendOut
  }

  function PcRank(pc: Pc): nat {
    match pc
    case InSend => 3
    case InRecv => 2
    case RecvAgain => 1
    case SendAgain => 1
    case Finished => 0
  }

  function ControlRank(c: Control): nat {
    match c
    case AtOut(_, _) => 20
    case Running(back) => if back.FromOut? then 15 else 5
    case AtIn(_) => 10
    case AtLoop => 0
    case Deleted => 0
  }

  /** A bound on the steps the connection can take by itself. */
  function Work(s: State): int {
    8 * |s.sock.inq| + 4 * (|s.buffer| - s.haveSent) + PcRank(s.pc) + ControlRank(s.control)
    + 32 * B(s.sock.pendIn) + 32 * B(s.sock.pendOut)
  }

  lemma WorkNotNegative(s: State)
    requires BytesKept(s)
    ensures 0 <= Work(s)
  {
  }

  predicate IsSwitch(a: Action) {
    a.WaitRecv? || a.WaitSend? || a.Deliver? || a.TestOut? || a.TestIn?
  }

  lemma SwitchWork(s: State, a: Action)
    requires WaitsOnce(s) && Can(s, a) && Unaided(s, a) && IsSwitch(a)
    ensures Work(Do(s, a)) < Work(s)
  {
  }

  lemma CallWork(s: State, a: Action)
    requires Can(s, a) && Unaided(s, a) && !IsSwitch(a) && (CanRecv(s) ==> !Unsent(s)) && s.haveSent <= |s.buffer|
    ensures Work(Do(s, a)) < Work(s)
  {
  }

  lemma WorkDecreases(s: State, a: Action)
    requires Inv(s) && Can(s, a) && Unaided(s, a)
    ensures 0 <= Work(Do(s, a)) < Work(s)
  {
    StepBytes(s, a);
    WorkNotNegative(Do(s, a));
    if IsSwitch(a) {
      SwitchWork(s, a);
    } else {
      CallWork(s, a);
    }
  }

  /** While the connection is alive and not at rest, it can take a step by itself. */
  lemma SomeStep(s: State) returns (a: Action)
    requires Inv(s) && !s.control.Deleted? && !Quiescent(s)
    ensures Can(s, a) && Unaided(s, a)
  {
    match s.control
    case AtLoop => a := Deliver(s.sock.pendIn, s.sock.pendOut, false);
    case AtOut(_, _) => a := TestOut;
    case AtIn(_) => a := TestIn;
    case Running(_) =>
      match s.pc
      case InRecv =>
        a := if s.sock.inq != [] then RecvData(1) else if s.sock.eof then RecvEof else RecvBlock;
      case RecvAgain => a := WaitRecv;
      case InSend =>
        a := if !Unsent(s) then SendDone else if s.sock.room == 0 then SendBlock else SendSome(1);
      case SendAgain => a := WaitSend;
  }

  ghost predicate UnaidedNext(s: State, s': State) {
    exists a :: Can(s, a) && Unaided(s, a) && s' == Do(s, a)
  }

  lemma UnaidedNextKept(s: State, s': State)
    requires Inv(s) && UnaidedNext(s, s')
    ensures Inv(s') && 0 <= Work(s') < Work(s)
  {
    var a :| Can(s, a) && Unaided(s, a) && s' == Do(s, a);
    WorkDecreases(s, a);
    StepKept(s, a);
  }

  /** Left alone, a connection takes at most `Work` steps, in whatever order its calls return, and
      stops only deleted or at rest. */
  lemma {:induction false} ComesToRest(alone: seq<State>, i: nat)
    requires i < |alone| && Inv(alone[0])
    requires forall k {:trigger UnaidedNext(alone[k - 1], alone[k])} :: 0 < k < |alone| ==> UnaidedNext(alone[k - 1], alone[k])
    ensures Inv(alone[i]) && i + Work(alone[i]) <= Work(alone[0]) && 0 <= Work(alone[i])
    ensures !alone[i].control.Deleted? && !Quiescent(alone[i]) ==> exists s' :: UnaidedNext(alone[i], s')
  {
    if i > 0 {
      ComesToRest(alone, i - 1);
      assert UnaidedNext(alone[i - 1], alone[i]);
      UnaidedNextKept(alone[i - 1], alone[i]);
    }
    if !alone[i].control.Deleted? && !Quiescent(alone[i]) {
      var a := SomeStep(alone[i]);
      assert UnaidedNext(alone[i], Do(alone[i], a));
    }
  }

  /** At rest and not exited, everything that arrived has been echoed and the peer has not closed,
      or the socket has no room for the next byte. */
  lemma RestMeansEchoed(run: seq<State>, i: nat)
    requires IsRun(run) && i < |run| && Quiescent(run[i]) && !run[i].exited
    ensures var s := run[i];
      || (s.recvWaiting && s.sent == s.arrived && !s.sock.eof)
      || (s.sendWaiting && s.sock.room == 0 && s.haveSent < |s.buffer| && s.sock.blocked)
  {
    RunKept(run, i);
  }

  // ---- who is resumed, and why ----

  /** Step j delivers a report that is still being handled in state i. */
  ghost predicate Handling(run: seq<State>, j: nat, i: nat, evIn: bool, evOut: bool) {
    && j < i < |run| && Can(run[j], Deliver(evIn, evOut, false)) && run[j + 1] == Do(run[j], Deliver(evIn, evOut, false))
    && forall k {:trigger run[k]} :: j < k <= i ==> run[k].control != AtLoop
  }

  /** What the handler has yet to test is what was reported. */
  ghost predicate Carries(c: Control, evIn: bool, evOut: bool) {
    match c
    case AtOut(o, n) => o == evOut && n == evIn
    case AtIn(n) => n == evIn
    case Running(back) => (back.FromOut? ==> evOut && back.evIn == evIn) && (back.FromIn? ==> evIn)
    case _ => false
  }

  predicate InHandler(c: Control) {
    c.AtOut? || c.AtIn? || (c.Running? && c.back != FromStart)
  }

  lemma StepHandles(s: State, a: Action, evIn: bool, evOut: bool)
    requires Can(s, a) && InHandler(Do(s, a).control) && InHandler(s.control) && Carries(s.control, evIn, evOut)
    ensures Carries(Do(s, a).control, evIn, evOut)
  {
  }

  lemma StepEnters(s: State, a: Action)
    requires Can(s, a) && InHandler(Do(s, a).control) && !InHandler(s.control)
    ensures s.control == AtLoop && a.Deliver? && !a.other && Carries(Do(s, a).control, a.evIn, a.evOut)
  {
  }

  lemma StepFrom(s: State, s': State) returns (a: Action)
    requires Next(s, s')
    ensures Can(s, a) && s' == Do(s, a)
  {
    a :| Can(s, a) && s' == Do(s, a);
  }

  lemma {:induction false} HandlesReport(run: seq<State>, i: nat) returns (j: nat, evIn: bool, evOut: bool)
    requires IsRun(run) && i < |run| && InHandler(run[i].control)
    ensures Handling(run, j, i, evIn, evOut) && Carries(run[i].control, evIn, evOut)
  {
    assert i > 0;
    assert Next(run[i - 1], run[i]);
    var a := StepFrom(run[i - 1], run[i]);
    if InHandler(run[i - 1].control) {
      j, evIn, evOut := HandlesReport(run, i - 1);
      StepHandles(run[i - 1], a, evIn, evOut);
    } else {
      StepEnters(run[i - 1], a);
      j, evIn, evOut := i - 1, a.evIn, a.evOut;
    }
  }

  lemma ResumingStep(s: State, a: Action)
    requires Can(s, a) && !s.control.Running? && Do(s, a).control.Running?
    ensures InHandler(s.control)
    ensures (s.control.AtOut? && s.control.evOut && s.sendWaiting && !Do(s, a).sendWaiting)
      || (s.control.AtIn? && s.control.evIn && s.recvWaiting && !Do(s, a).recvWaiting)
  {
  }

  /** A suspended coroutine is resumed only by the handler of a report of what it waits for. */
  lemma ResumedByReport(run: seq<State>, i: nat) returns (j: nat, evIn: bool, evOut: bool)
    requires IsRun(run) && i + 1 < |run| && !run[i].control.Running? && run[i + 1].control.Running?
    ensures Handling(run, j, i, evIn, evOut)
    ensures (run[i].sendWaiting && evOut && !run[i + 1].sendWaiting) || (run[i].recvWaiting && evIn && !run[i + 1].recvWaiting)
  {
    var k := i + 1;
    assert Next(run[k - 1], run[k]);
    var a :| Can(run[i], a) && run[i + 1] == Do(run[i], a);
    ResumingStep(run[i], a);
    j, evIn, evOut := HandlesReport(run, i);
  }

  // ---- how a connection ends ----

  /** A coroutine that exits takes its connection with it exactly when a handler had resumed it. */
  lemma ExitDeletes(s: State, a: Action)
    requires Inv(s) && Can(s, a) && !s.exited && Do(s, a).exited
    ensures s.control.Running? && (Do(s, a).control == Deleted <==> s.control.back != FromStart)
  {
  }

  /** One that exits inside start() is left behind: no report of input or output ever deletes it. */
  lemma {:induction false} LeftBehind(run: seq<State>, i: nat, j: nat)
    requires IsRun(run) && i <= j < |run| && Suspended(run[i]) && run[i].exited
    requires forall k {:trigger Reported(run[k - 1], run[k])} :: i < k <= j ==> !Reported(run[k - 1], run[k])
    ensures Suspended(run[j]) && run[j].exited
  {
    if i < j {
      assert !Reported(run[j - 1], run[j]);
      LeftBehind(run, i, j - 1);
      RunKept(run, j - 1);
      assert Next(run[j - 1], run[j]);
      StaysBehind(run[j - 1], run[j]);
    }
  }

  lemma StaysBehind(s: State, s': State)
    requires WaitsOnce(s) && Next(s, s') && !Reported(s, s') && Suspended(s) && s.exited
    ensures Suspended(s') && s'.exited
  {
    var a :| Can(s, a) && s' == Do(s, a);
    if a.Deliver? && a.other {
      assert Reports(s, a.evIn, a.evOut, s');
    }
  }

  /** The step is the report of an error or a hang-up. */
  ghost predicate Reported(s: State, s': State) {
    exists evIn, evOut :: Reports(s, evIn, evOut, s')
  }

  predicate Reports(s: State, evIn: bool, evOut: bool, s': State) {
    Can(s, Deliver(evIn, evOut, true)) && s' == Do(s, Deliver(evIn, evOut, true))
  }

  /** The report of an error or a hang-up deletes the connection, exited or not, for good. */
  lemma HangUpDeletes(run: seq<State>, i: nat, j: nat)
    requires IsRun(run) && 0 < i <= j < |run| && Reported(run[i - 1], run[i])
    ensures run[j].control == Deleted
  {
    var evIn, evOut :| Reports(run[i - 1], evIn, evOut, run[i]);
    DeletedStays(run, i, j);
  }

  lemma {:induction false} ExitStep(run: seq<State>, i: nat) returns (j: nat)
    requires IsRun(run) && i < |run| && run[i].exited
    ensures j < i && !run[j].exited && forall k :: j < k <= i ==> run[k].exited
  {
    if run[i - 1].exited {
      j := ExitStep(run, i - 1);
    } else {
      j := i - 1;
    }
  }

  lemma {:induction false} DeletedStays(run: seq<State>, i: nat, j: nat)
    requires IsRun(run) && i <= j < |run| && run[i].control == Deleted
    ensures run[j].control == Deleted
  {
    if i < j {
      DeletedStays(run, i, j - 1);
      assert Next(run[j - 1], run[j]);
      var a :| Can(run[j - 1], a) && run[j] == Do(run[j - 1], a);
    }
  }

  /** The coroutine exits in step j, inside start(), and nothing is reported from then on to step i. */
  ghost predicate LeftInStart(run: seq<State>, j: nat, i: nat)
    requires i < |run|
  {
    && j < i && run[j].control == Running(FromStart) && !run[j].exited && run[j + 1].exited
    && forall k {:trigger Reported(run[k - 1], run[k])} :: j + 1 < k <= i ==> !Reported(run[k - 1], run[k])
  }

  lemma ExitAt(run: seq<State>, j: nat)
    requires IsRun(run) && j + 1 < |run| && !run[j].exited && run[j + 1].exited
    ensures run[j].control.Running? && (run[j + 1].control == Deleted <==> run[j].control.back != FromStart)
    ensures run[j].control == Running(FromStart) ==> run[j + 1].control == AtLoop
  {
    RunKept(run, j);
    var k := j + 1;
    assert Next(run[k - 1], run[k]);
    var a :| Can(run[j], a) && run[j + 1] == Do(run[j], a);
    ExitDeletes(run[j], a);
  }

  /** A connection outlives its coroutine in a run exactly when the exit was inside start() and no
      error or hang-up has been reported since. */
  lemma OutlivesExit(run: seq<State>, i: nat)
    requires IsRun(run) && i < |run| && run[i].exited
    ensures run[i].control != Deleted <==> exists j: nat :: LeftInStart(run, j, i)
  {
    if j: nat :| LeftInStart(run, j, i) {
      ExitAt(run, j);
      LeftBehind(run, j + 1, i);
    }
    if run[i].control != Deleted {
      var j := ExitStep(run, i);
      ExitAt(run, j);
      if run[j + 1].control == Deleted {
        DeletedStays(run, j + 1, i);
      }
      forall k {:trigger Reported(run[k - 1], run[k])} | j + 1 < k <= i ensures !Reported(run[k - 1], run[k]) {
        if Reported(run[k - 1], run[k]) {
          HangUpDeletes(run, k, i);
        }
      }
      assert LeftInStart(run, j, i);
    }
  }

  lemma DeletingStep(s: State, a: Action)
    requires WaitsOnce(s) && Can(s, a) && s.control != Deleted && Do(s, a).control == Deleted
    ensures (a.Deliver? && a.other) || (!s.exited && Do(s, a).exited && s.control.Running? && s.control.back != FromStart)
  {
  }

  /** Nothing else deletes a connection: only a report of an error or a hang-up, or the exit of a coroutine
      that a handler had resumed. */
  lemma DeletedOnlyBy(run: seq<State>, i: nat)
    requires IsRun(run) && 0 < i < |run| && run[i - 1].control != Deleted && run[i].control == Deleted
    ensures Reported(run[i - 1], run[i]) ||
      (!run[i - 1].exited && run[i].exited && run[i - 1].control.Running? && run[i - 1].control.back != FromStart)
  {
    RunKept(run, i - 1);
    assert Next(run[i - 1], run[i]);
    var a :| Can(run[i - 1], a) && run[i] == Do(run[i - 1], a);
    DeletingStep(run[i - 1], a);
    if a.Deliver? && a.other {
      assert Reports(run[i - 1], a.evIn, a.evOut, run[i]);
    }
  }

  /** A run that leaves a connection behind: the peer has closed before start() receives. */
  lemma ClosedBeforeStart() returns (run: seq<State>)
    ensures IsRun(run) && |run| == 2 && run[1].exited && run[1].control == AtLoop
    ensures LeftInStart(run, 0, 1)
  {
    var s := State(Running(FromStart), InRecv, false, false, false, [], 0, 0,
                   Socket([], true, 0, false, true, false), [], [], []);
    run := [s, Do(s, RecvEof)];
    assert Can(s, RecvEof) && run[1] == Do(run[0], RecvEof);
    assert Next(run[0], run[1]);
  }

  /** What ends the coroutine: end of stream, a failed recv, or the end of a buffer during which
      some send failed.  A hard send error by itself does not: await_send calls send again with
      the same bytes, until all of them are sent. */
  lemma ExitCauses(s: State, a: Action)
    requires Inv(s) && Can(s, a) && !s.exited
    ensures Do(s, a).exited <==> a.RecvEof? || a.RecvError? || (a.SendDone? && s.ret < 0)
    ensures a.SendDone? ==> s.haveSent == |s.buffer|
    ensures a.SendFail? ==> CanSend(Do(s, a)) && Do(s, a) == s.(ret := -1)
  {
  }

  /** Between a recv that has brought a buffer and the end of await_send, with a send that has failed. */
  predicate Failing(s: State) {
    (s.pc == InSend || s.pc == SendAgain) && s.ret < 0
  }

  /** await_send returns: all bytes of the buffer have been sent. */
  ghost predicate BufferEnds(run: seq<State>, j: nat)
    requires j + 1 < |run|
  {
    Can(run[j], SendDone) && run[j + 1] == Do(run[j], SendDone)
  }

  ghost predicate BufferEnded(run: seq<State>, k: nat, i: nat)
    requires i < |run|
  {
    exists j: nat :: k <= j < i && BufferEnds(run, j)
  }

  lemma EndedLater(run: seq<State>, k: nat, i: nat)
    requires k < i < |run|
    ensures BufferEnded(run, k, i) <==> BufferEnded(run, k, i - 1) || BufferEnds(run, i - 1)
  {
    if j: nat :| k <= j < i && BufferEnds(run, j) {
      assert j < i - 1 || j == i - 1;
    }
  }

  /** A buffer with a failed send stays the buffer, and its end is the coroutine's. */
  lemma FailingStep(s: State, s': State)
    requires WaitsOnce(s) && BytesKept(s) && Next(s, s') && (s.exited || Failing(s))
    ensures s'.buffer == s.buffer && (s'.exited || Failing(s')) && (s.exited ==> s'.exited && s'.haveSent == s.haveSent)
    ensures Can(s, SendDone) && s' == Do(s, SendDone) ==> s'.exited
    ensures !s.exited && s'.exited ==> Can(s, SendDone) && s' == Do(s, SendDone) && s'.haveSent == |s'.buffer|
  {
    var a :| Can(s, a) && s' == Do(s, a);
  }

  /** Once a send of a buffer has failed, the coroutine goes on with that buffer, however many sends fail
      or block, and it exits exactly when all of the buffer has been sent. */
  lemma {:induction false} FailedBufferEnds(run: seq<State>, k: nat, i: nat)
    requires IsRun(run) && k <= i < |run| && Failing(run[k])
    ensures run[i].buffer == run[k].buffer && (run[i].exited || Failing(run[i]))
    ensures run[i].exited <==> BufferEnded(run, k, i)
    ensures run[i].exited ==> run[i].haveSent == |run[i].buffer|
  {
    if k < i {
      FailedBufferEnds(run, k, i - 1);
      RunKept(run, i - 1);
      assert Next(run[i - 1], run[i]);
      FailingStep(run[i - 1], run[i]);
      EndedLater(run, k, i);
    } else {
      RunKept(run, k);
    }
  }

  /** On a socket whose sends all fail, await_send goes on for as long as one cares to watch. */
  lemma {:induction false} FailingSendSpins(n: nat) returns (run: seq<State>)
    ensures IsRun(run) && |run| == n + 2
    ensures CanSend(run[n + 1]) && !run[n + 1].exited && run[n + 1].sent == [] && |run[n + 1].received| == 1
    ensures n > 0 ==> run[n + 1].ret < 0
  {
    if n == 0 {
      var s := State(Running(FromStart), InRecv, false, false, false, [], 0, 0,
                     Socket([0], false, 1, false, true, true), [0], [], []);
      run := [s, Do(s, RecvData(1))];
      assert Can(s, RecvData(1)) && run[1] == Do(run[0], RecvData(1));
      assert Next(run[0], run[1]);
    } else {
      run := FailingSendSpins(n - 1);
      var last := run[n];
      assert Can(last, SendFail);
      var longer := run + [Do(last, SendFail)];
      assert Next(last, longer[n + 1]);
      forall i {:trigger Next(longer[i - 1], longer[i])} | 0 < i < |longer| ensures Next(longer[i - 1], longer[i]) {
        if i < |run| {
          assert Next(run[i - 1], run[i]);
        }
      }
      run := longer;
    }
  }
}
