/** What an echo connection does with the bytes of each event, on values.

    The servers differ only in what they offer the kernel: both segments of the ring, or the
    first one. */
module EchoRuns {
  import opened Numbers
  import opened RingBuffers

  datatype EpollBit = EPOLLIN | EPOLLOUT | EPOLLOTHER

  /** A wake-up, and what the kernel does during it: the send of handle_write, and the receive and
      the send of handle_read. */
  datatype Event = Event(ev: set<EpollBit>, write: SendResult, read: RecvResult, echo: SendResult)

  /** A ring of `n` cells, offered as one segment or as two. */
  datatype Ring = Ring(n: nat, oneSegment: bool)

  /** The read cursor, the bytes stored, the histories, and whether the connection is still open. */
  datatype View = View(f: nat, stored: seq<byte>, received: seq<byte>, sent: seq<byte>, open: bool)

  predicate GoodView(g: Ring, v: View) {
    2 <= g.n <= TWO_31 && TWO_64 % g.n == 0 && v.f < TWO_64 && |v.stored| <= g.n - 1
  }

  predicate Full(g: Ring, v: View) {
    |v.stored| == g.n - 1
  }

  /** The segments offered to one call. */
  function Offered(segs: seq<Iovec>, oneSegment: bool): seq<Iovec>
    requires segs != []
  {
    if oneSegment then segs[..1] else segs
  }

  /** The write cursor that goes with a view. */
  function WriteEnd(v: View): nat {
    (v.f + |v.stored|) % TWO_64
  }

  /** How many bytes one receive can take, and one send can give. */
  function RoomIn(g: Ring, v: View): nat
    requires g.n >= 2
  {
    if g.oneSegment then BlankSegments(g.n, v.f, WriteEnd(v))[0].len
    else if |v.stored| <= g.n - 1 then g.n - 1 - |v.stored| else 0
  }

  function ReadyOut(g: Ring, v: View): nat
    requires g.n >= 2
  {
    if g.oneSegment then ExistSegments(g.n, v.f, WriteEnd(v))[0].len else |v.stored|
  }

  /** The bytes that one receive takes, and that one send takes. */
  function Takes(g: Ring, v: View, r: RecvResult): (bytes: seq<byte>)
    requires g.n >= 2
  {
    if r.Received? then r.bytes[..Min(|r.bytes|, RoomIn(g, v))] else []
  }

  function Gives(g: Ring, v: View, r: SendResult): (bytes: seq<byte>)
    requires g.n >= 2
  {
    if r.Accepted? then v.stored[..Min(Min(r.n, |v.stored|), ReadyOut(g, v))] else []
  }

  // ---- one event ----

  function AfterRecv(g: Ring, v: View, r: RecvResult): View
    requires g.n >= 2
  {
    if Full(g, v) then v
    else if RecvEnds(r) then v.(open := false)
    else v.(stored := v.stored + Takes(g, v, r), received := v.received + Takes(g, v, r))
  }

  function AfterSend(g: Ring, v: View, r: SendResult): View
    requires g.n >= 2
  {
    if v.stored == [] then v
    else if r.SendFailed? then v.(open := false)
    else
      var bytes := Gives(g, v, r);
      v.(f := (v.f + |bytes|) % TWO_64, stored := v.stored[|bytes|..], sent := v.sent + bytes)
  }

  /** Whatever was received is echoed at once, as far as the socket takes it. */
  function AfterRead(g: Ring, v: View, read: RecvResult, echo: SendResult): View
    requires g.n >= 2
  {
    var w := AfterRecv(g, v, read);
    if w.open && w.received != v.received then AfterSend(g, w, echo) else w
  }

  function AfterEvent(g: Ring, v: View, e: Event): View
    requires g.n >= 2
  {
    if EPOLLOTHER in e.ev then v.(open := false)
    else
      var w := if EPOLLOUT in e.ev then AfterSend(g, v, e.write) else v;
      if w.open && EPOLLIN in e.ev then AfterRead(g, w, e.read, e.echo) else w
  }

  /** A run handles events until one closes the connection. */
  function AfterRun(g: Ring, v: View, events: seq<Event>): View
    requires g.n >= 2
  {
    if events == [] then v
    else
      var w := AfterRun(g, v, events[..|events| - 1]);
      if w.open then AfterEvent(g, w, events[|events| - 1]) else w
  }

  // ---- what a call offers ----

  lemma OfferedCells(segs: seq<Iovec>, oneSegment: bool, n: nat)
    requires segs != [] && GoodCells(Cells(segs), n)
    ensures var cells := Cells(Offered(segs, oneSegment));
      cells <= Cells(segs) && GoodCells(cells, n) && (segs[0].len > 0 ==> cells != [])
  {
    FirstCells(segs);
  }

  lemma ViewCursors(g: Ring, v: View)
    requires GoodView(g, v)
    ensures GoodCursors(g.n, v.f, WriteEnd(v)) && Used(v.f, WriteEnd(v)) == |v.stored|
  {
    var p, w := WriteEnd(v), (v.f + |v.stored|) / TWO_64;
    assert p - v.f == -w * TWO_64 + |v.stored|;
    DivModUnique(p - v.f, -w, |v.stored|, TWO_64);
  }

  /** What a call offers has that many cells: some whenever there is room, or are bytes, at all. */
  lemma OfferedLengths(g: Ring, v: View)
    requires GoodView(g, v)
    ensures |Cells(Offered(BlankSegments(g.n, v.f, WriteEnd(v)), g.oneSegment))| == RoomIn(g, v) <= g.n - 1 - |v.stored|
    ensures |Cells(Offered(ExistSegments(g.n, v.f, WriteEnd(v)), g.oneSegment))| == ReadyOut(g, v) <= |v.stored|
    ensures (RoomIn(g, v) > 0 <==> |v.stored| < g.n - 1) && (ReadyOut(g, v) > 0 <==> v.stored != [])
  {
    var p := WriteEnd(v);
    ViewCursors(g, v);
    BlankInOrder(g.n, v.f, p);
    ExistInOrder(g.n, v.f, p);
    FirstCells(BlankSegments(g.n, v.f, p));
    FirstCells(ExistSegments(g.n, v.f, p));
    FirstSegmentNonempty(g.n, v.f, p);
  }

  /** A receive takes a prefix of what the peer has sent, all of it if it fits into both segments, and
      something whenever there are room and bytes. */
  lemma TakesSome(g: Ring, v: View, r: RecvResult)
    requires GoodView(g, v) && r.Received?
    ensures Takes(g, v, r) <= r.bytes && |v.stored| + |Takes(g, v, r)| <= g.n - 1
    ensures !Full(g, v) && r.bytes != [] ==> Takes(g, v, r) != []
    ensures !g.oneSegment && |v.stored| + |r.bytes| <= g.n - 1 ==> Takes(g, v, r) == r.bytes
  {
    OfferedLengths(g, v);
  }

  /** A send takes a prefix of what is stored, as much as the kernel accepts of both segments, and
      something whenever bytes are stored and any are accepted. */
  lemma GivesSome(g: Ring, v: View, r: SendResult)
    requires GoodView(g, v) && r.Accepted?
    ensures Gives(g, v, r) <= v.stored && |Gives(g, v, r)| == Min(r.n, ReadyOut(g, v))
    ensures v.stored != [] && r.n > 0 ==> Gives(g, v, r) != []
    ensures !g.oneSegment && r.n <= |v.stored| ==> |Gives(g, v, r)| == r.n
  {
    OfferedLengths(g, v);
  }

  // ---- what every event keeps ----

  /** The bytes received are the bytes sent, then the bytes stored. */
  predicate Echoes(v: View) {
    v.received == v.sent + v.stored
  }

  lemma PrefixMoves(sent: seq<byte>, stored: seq<byte>, bytes: seq<byte>)
    requires bytes <= stored
    ensures sent + bytes + stored[|bytes|..] == sent + stored
  {
    assert stored == bytes + stored[|bytes|..];
  }

  lemma RecvEchoes(g: Ring, v: View, r: RecvResult)
    requires GoodView(g, v) && Echoes(v)
    ensures GoodView(g, AfterRecv(g, v, r)) && Echoes(AfterRecv(g, v, r))
  {
    if r.Received? {
      TakesSome(g, v, r);
    }
    ConcatAssociates(v.sent, v.stored, Takes(g, v, r));
  }

  lemma SendEchoes(g: Ring, v: View, r: SendResult)
    requires GoodView(g, v) && Echoes(v)
    ensures GoodView(g, AfterSend(g, v, r)) && Echoes(AfterSend(g, v, r))
  {
    if r.Accepted? {
      GivesSome(g, v, r);
    }
    PrefixMoves(v.sent, v.stored, Gives(g, v, r));
  }

  lemma ReadEchoes(g: Ring, v: View, read: RecvResult, echo: SendResult)
    requires GoodView(g, v) && Echoes(v)
    ensures GoodView(g, AfterRead(g, v, read, echo)) && Echoes(AfterRead(g, v, read, echo))
  {
    RecvEchoes(g, v, read);
    SendEchoes(g, AfterRecv(g, v, read), echo);
  }

  lemma EventEchoes(g: Ring, v: View, e: Event)
    requires GoodView(g, v) && Echoes(v)
    ensures GoodView(g, AfterEvent(g, v, e)) && Echoes(AfterEvent(g, v, e))
  {
    SendEchoes(g, v, e.write);
    var w := if EPOLLOUT in e.ev then AfterSend(g, v, e.write) else v;
    ReadEchoes(g, w, e.read, e.echo);
  }

  lemma {:induction false} RunEchoes(g: Ring, v: View, events: seq<Event>)
    requires GoodView(g, v) && Echoes(v)
    ensures GoodView(g, AfterRun(g, v, events)) && Echoes(AfterRun(g, v, events))
  {
    if events != [] {
      var l := |events| - 1;
      RunEchoes(g, v, events[..l]);
      EventEchoes(g, AfterRun(g, v, events[..l]), events[l]);
    }
  }

  // ---- what a call and an event do, byte by byte ----

  /** The event's first send goes wrong. */
  predicate WriteFails(v: View, e: Event) {
    EPOLLOUT in e.ev && v.stored != [] && e.write.SendFailed?
  }

  predicate ReadsInput(v: View, e: Event) {
    EPOLLIN in e.ev && !WriteFails(v, e)
  }

  /** The view with its first k bytes sent, and the view with more bytes stored. */
  function Without(v: View, k: nat): View
    requires k <= |v.stored|
  {
    v.(f := (v.f + k) % TWO_64, stored := v.stored[k..], sent := v.sent + v.stored[..k])
  }

  function With(v: View, part: seq<byte>): View {
    v.(stored := v.stored + part, received := v.received + part)
  }

  lemma NothingMoves(v: View)
    requires v.f < TWO_64
    ensures Without(v, 0) == v && With(v, []) == v
  {
    assert v.sent + v.stored[..0] == v.sent && v.stored + [] == v.stored && v.received + [] == v.received;
  }

  lemma SendDoes(g: Ring, v: View, r: SendResult) returns (k: nat)
    requires GoodView(g, v) && v.open
    ensures k == (if r.Accepted? then Min(r.n, ReadyOut(g, v)) else 0) && k <= |v.stored|
    ensures AfterSend(g, v, r) == Without(v, k).(open := !(v.stored != [] && r.SendFailed?))
  {
    OfferedLengths(g, v);
    NothingMoves(v);
    k := if r.Accepted? then Min(r.n, ReadyOut(g, v)) else 0;
  }

  lemma RecvDoes(g: Ring, v: View, r: RecvResult) returns (part: seq<byte>)
    requires GoodView(g, v) && v.open
    ensures part == (if r.Received? then r.bytes[..Min(|r.bytes|, RoomIn(g, v))] else []) && |v.stored| + |part| <= g.n - 1
    ensures part != [] <==> r.Received? && r.bytes != [] && |v.stored| < g.n - 1
    ensures AfterRecv(g, v, r) == With(v, part).(open := |v.stored| == g.n - 1 || !RecvEnds(r))
  {
    OfferedLengths(g, v);
    NothingMoves(v);
    part := if r.Received? then r.bytes[..Min(|r.bytes|, RoomIn(g, v))] else [];
  }

  /** An event that does not report anything unknown sends `a` of the bytes stored, adds `part` of the
      bytes that arrived, and then sends `b` more. */
  ghost predicate Moved(g: Ring, v: View, e: Event, w: View, a: nat, part: seq<byte>, b: nat)
    requires GoodView(g, v)
  {
    && a <= |v.stored| && |v.stored| - a + |part| <= g.n - 1 && b <= |v.stored| - a + |part|
    && a == (if EPOLLOUT in e.ev && e.write.Accepted? then Min(e.write.n, ReadyOut(g, v)) else 0)
    && var u := Without(v, a);
    && part == (if ReadsInput(v, e) && e.read.Received? then e.read.bytes[..Min(|e.read.bytes|, RoomIn(g, u))] else [])
    && b == (if part != [] && e.echo.Accepted? then Min(e.echo.n, ReadyOut(g, With(u, part))) else 0)
    && w == Without(With(u, part), b).(open := w.open)
    && (w.open <==>
         && !WriteFails(v, e) && !(part != [] && e.echo.SendFailed?)
         && !(ReadsInput(v, e) && |v.stored| - a < g.n - 1 && RecvEnds(e.read)))
  }

  lemma TwoSends(v: View, part: seq<byte>, a: nat, b: nat)
    requires a <= |v.stored| && b <= |v.stored| - a + |part|
    ensures var w := Without(With(Without(v, a), part), b);
      && w.sent == v.sent + (v.stored + part)[..a + b] && w.stored == (v.stored + part)[a + b..]
      && w.received == v.received + part
  {
    assert v.stored[..a] + (v.stored[a..] + part)[..b] == (v.stored + part)[..a + b];
  }

  lemma ReadDoes(g: Ring, v: View, read: RecvResult, echo: SendResult) returns (part: seq<byte>, b: nat)
    requires GoodView(g, v) && v.open
    ensures part == (if read.Received? then read.bytes[..Min(|read.bytes|, RoomIn(g, v))] else []) && |v.stored| + |part| <= g.n - 1
    ensures b == (if part != [] && echo.Accepted? then Min(echo.n, ReadyOut(g, With(v, part))) else 0) && b <= |v.stored| + |part|
    ensures var w := AfterRead(g, v, read, echo);
      && w == Without(With(v, part), b).(open := w.open)
      && (w.open <==> (|v.stored| == g.n - 1 || !RecvEnds(read)) && !(part != [] && echo.SendFailed?))
  {
    var u := AfterRecv(g, v, read);
    part := RecvDoes(g, v, read);
    b := 0;
    NothingMoves(With(v, part));
    if part != [] {
      b := SendDoes(g, u, echo);
    }
  }

  lemma WriteDoes(g: Ring, v: View, e: Event) returns (a: nat)
    requires GoodView(g, v) && v.open
    ensures a == (if EPOLLOUT in e.ev && e.write.Accepted? then Min(e.write.n, ReadyOut(g, v)) else 0) && a <= |v.stored|
    ensures var u := if EPOLLOUT in e.ev then AfterSend(g, v, e.write) else v;
      u == Without(v, a).(open := !WriteFails(v, e))
  {
    a := 0;
    NothingMoves(v);
    if EPOLLOUT in e.ev {
      a := SendDoes(g, v, e.write);
    }
  }

  lemma EventReads(g: Ring, v: View, e: Event, a: nat) returns (part: seq<byte>, b: nat)
    requires GoodView(g, v) && v.open && EPOLLOTHER !in e.ev && ReadsInput(v, e) && a <= |v.stored|
    requires a == if EPOLLOUT in e.ev && e.write.Accepted? then Min(e.write.n, ReadyOut(g, v)) else 0
    requires (if EPOLLOUT in e.ev then AfterSend(g, v, e.write) else v) == Without(v, a)
    ensures Moved(g, v, e, AfterEvent(g, v, e), a, part, b)
  {
    var u := Without(v, a);
    part, b := ReadDoes(g, u, e.read, e.echo);
    assert AfterEvent(g, v, e) == AfterRead(g, u, e.read, e.echo);
  }

  lemma EventDoesNotRead(g: Ring, v: View, e: Event, a: nat)
    requires GoodView(g, v) && v.open && EPOLLOTHER !in e.ev && !ReadsInput(v, e) && a <= |v.stored|
    requires a == if EPOLLOUT in e.ev && e.write.Accepted? then Min(e.write.n, ReadyOut(g, v)) else 0
    requires (if EPOLLOUT in e.ev then AfterSend(g, v, e.write) else v) == Without(v, a).(open := !WriteFails(v, e))
    ensures Moved(g, v, e, AfterEvent(g, v, e), a, [], 0)
  {
    NothingMoves(Without(v, a));
  }

  /** Everything an event does, from what the kernel did: nothing at all if it reports something unknown. */
  lemma EventDoes(g: Ring, v: View, e: Event) returns (a: nat, part: seq<byte>, b: nat)
    requires GoodView(g, v) && v.open
    ensures EPOLLOTHER in e.ev ==> AfterEvent(g, v, e) == v.(open := false) && part == []
    ensures EPOLLOTHER !in e.ev ==> Moved(g, v, e, AfterEvent(g, v, e), a, part, b)
  {
    a, part, b := 0, [], 0;
    if EPOLLOTHER !in e.ev {
      a := WriteDoes(g, v, e);
      if ReadsInput(v, e) {
        part, b := EventReads(g, v, e, a);
      } else {
        EventDoesNotRead(g, v, e, a);
      }
    }
  }

  /** When the receive is made `stored` bytes are stored; `part` is all that arrived, as far as it fits
      into the room left, or into the one segment offered. */
  predicate Brought(g: Ring, v: View, e: Event, stored: nat, part: seq<byte>)
    requires GoodView(g, v)
  {
    && stored <= |v.stored| && stored + |part| <= g.n - 1
    && stored == |v.stored| - (if EPOLLOUT in e.ev && e.write.Accepted?
         then Min(e.write.n, if g.oneSegment then ExistSegments(g.n, v.f, (v.f + |v.stored|) % TWO_64)[0].len else |v.stored|) else 0)
    && var f := (v.f + (|v.stored| - stored)) % TWO_64;
    && part == (if EPOLLOTHER !in e.ev && EPOLLIN in e.ev && !WriteFails(v, e) && e.read.Received?
         then e.read.bytes[..Min(|e.read.bytes|,
           if g.oneSegment then BlankSegments(g.n, f, (f + stored) % TWO_64)[0].len else g.n - 1 - stored)] else [])
  }

  /** What the sends of an event take: all that the kernel accepts of what is stored, or of the one segment
      offered, before the receive and after it. */
  predicate SentOut(g: Ring, v: View, e: Event, part: seq<byte>, a: nat, b: nat)
    requires GoodView(g, v)
  {
    && a <= |v.stored|
    && a == (if EPOLLOUT in e.ev && e.write.Accepted?
         then Min(e.write.n, if g.oneSegment then ExistSegments(g.n, v.f, (v.f + |v.stored|) % TWO_64)[0].len else |v.stored|) else 0)
    && var f, stored := (v.f + a) % TWO_64, |v.stored| - a + |part|;
    && b == (if part != [] && e.echo.Accepted?
         then Min(e.echo.n, if g.oneSegment then ExistSegments(g.n, f, (f + stored) % TWO_64)[0].len else stored) else 0)
  }

  lemma RoomInNumbers(g: Ring, v: View, f: nat, stored: nat)
    requires g.n >= 2 && v.f == f && |v.stored| == stored <= g.n - 1
    ensures RoomIn(g, v) == if g.oneSegment then BlankSegments(g.n, f, (f + stored) % TWO_64)[0].len else g.n - 1 - stored
  {
  }

  lemma ReadyInNumbers(g: Ring, v: View, f: nat, stored: nat)
    requires g.n >= 2 && v.f == f && |v.stored| == stored
    ensures ReadyOut(g, v) == if g.oneSegment then ExistSegments(g.n, f, (f + stored) % TWO_64)[0].len else stored
  {
  }

  lemma BroughtInNumbers(g: Ring, v: View, e: Event, w: View, a: nat, part: seq<byte>, b: nat)
    requires GoodView(g, v) && EPOLLOTHER !in e.ev && Moved(g, v, e, w, a, part, b)
    ensures Brought(g, v, e, |v.stored| - a, part)
  {
    ReadyInNumbers(g, v, v.f, |v.stored|);
    RoomInNumbers(g, Without(v, a), (v.f + a) % TWO_64, |v.stored| - a);
  }

  lemma SentInNumbers(g: Ring, v: View, e: Event, w: View, a: nat, part: seq<byte>, b: nat)
    requires GoodView(g, v) && EPOLLOTHER !in e.ev && Moved(g, v, e, w, a, part, b)
    ensures SentOut(g, v, e, part, a, b)
  {
    ReadyInNumbers(g, v, v.f, |v.stored|);
    ReadyInNumbers(g, With(Without(v, a), part), (v.f + a) % TWO_64, |v.stored| - a + |part|);
  }

  /** What an event has sent and stored. */
  ghost predicate InNumbers(g: Ring, v: View, e: Event, w: View, a: nat, part: seq<byte>, b: nat)
    requires GoodView(g, v)
  {
    && a <= |v.stored| && Brought(g, v, e, |v.stored| - a, part) && SentOut(g, v, e, part, a, b)
    && a + b <= |v.stored + part| && w.received == v.received + part
    && w.sent == v.sent + (v.stored + part)[..a + b] && w.stored == (v.stored + part)[a + b..]
  }

  lemma MovedInNumbers(g: Ring, v: View, e: Event, w: View, a: nat, part: seq<byte>, b: nat)
    requires GoodView(g, v) && EPOLLOTHER !in e.ev && Moved(g, v, e, w, a, part, b)
    ensures InNumbers(g, v, e, w, a, part, b)
  {
    BroughtInNumbers(g, v, e, w, a, part, b);
    SentInNumbers(g, v, e, w, a, part, b);
    TwoSends(v, part, a, b);
  }

  /** The blank segments start with an empty one only if the ring is full. */
  lemma FirstBlank(g: Ring, v: View, f: nat, stored: nat)
    requires GoodView(g, v) && stored <= |v.stored| && f < TWO_64
    ensures BlankSegments(g.n, f, (f + stored) % TWO_64)[0].len > 0 <==> stored < g.n - 1
  {
    var u := v.(f := f, stored := v.stored[..stored]);
    ViewCursors(g, u);
    FirstSegmentNonempty(g.n, f, WriteEnd(u));
  }

  lemma BroughtSome(g: Ring, v: View, e: Event, stored: nat, part: seq<byte>)
    requires GoodView(g, v) && EPOLLOTHER !in e.ev && Brought(g, v, e, stored, part)
    ensures part != [] <==> ReadsInput(v, e) && e.read.Received? && e.read.bytes != [] && stored < g.n - 1
    ensures part != [] && !g.oneSegment ==> part == e.read.bytes || stored + |part| == g.n - 1
  {
    FirstBlank(g, v, (v.f + (|v.stored| - stored)) % TWO_64, stored);
  }

  /** An event brings all of the bytes that arrived, unless the ring, or the one segment offered, is then
      full.  It brings nothing only if its receive is not reached, nothing arrived, or the ring was full. */
  lemma EventBrings(g: Ring, v: View, e: Event) returns (part: seq<byte>, stored: nat)
    requires GoodView(g, v) && v.open
    ensures AfterEvent(g, v, e).received == v.received + part
    ensures EPOLLOTHER in e.ev ==> part == []
    ensures EPOLLOTHER !in e.ev ==>
      && Brought(g, v, e, stored, part)
      && (part != [] <==> ReadsInput(v, e) && e.read.Received? && e.read.bytes != [] && stored < g.n - 1)
      && (part != [] && !g.oneSegment ==> part == e.read.bytes || stored + |part| == g.n - 1)
  {
    var a, b;
    a, part, b := EventDoes(g, v, e);
    stored := |v.stored|;
    if EPOLLOTHER !in e.ev {
      stored := |v.stored| - a;
      MovedInNumbers(g, v, e, AfterEvent(g, v, e), a, part, b);
      BroughtSome(g, v, e, stored, part);
    }
  }

  /** The bytes an event sends were received before, and are sent in the order they were received: as many
      as the kernel accepts of what is stored when it is called. */
  lemma EventSends(g: Ring, v: View, e: Event) returns (part: seq<byte>, a: nat, b: nat)
    requires GoodView(g, v) && Echoes(v) && v.open
    ensures v.sent <= AfterEvent(g, v, e).sent <= AfterEvent(g, v, e).received == v.received + part
    ensures EPOLLOTHER in e.ev ==> AfterEvent(g, v, e).sent == v.sent
    ensures EPOLLOTHER !in e.ev ==>
      && SentOut(g, v, e, part, a, b) && a + b <= |v.stored + part|
      && AfterEvent(g, v, e).sent == v.sent + (v.stored + part)[..a + b]
      && AfterEvent(g, v, e).stored == (v.stored + part)[a + b..]
    ensures EPOLLOTHER !in e.ev && EPOLLOUT in e.ev && v.stored != [] && e.write.Accepted? && e.write.n > 0 ==> a > 0
  {
    a, part, b := EventDoes(g, v, e);
    EventEchoes(g, v, e);
    OfferedLengths(g, v);
    if EPOLLOTHER !in e.ev {
      MovedInNumbers(g, v, e, AfterEvent(g, v, e), a, part, b);
    }
  }

  /** An event closes the connection exactly if it reports something unknown, or a call that it
      makes fails or meets the end of the stream. */
  lemma EventCloses(g: Ring, v: View, e: Event) returns (stored: nat)
    requires GoodView(g, v) && v.open
    ensures !AfterEvent(g, v, e).open <==>
      || EPOLLOTHER in e.ev || WriteFails(v, e)
      || (EPOLLIN in e.ev && stored < g.n - 1 && RecvEnds(e.read))
      || (AfterEvent(g, v, e).received != v.received && e.echo.SendFailed?)
    ensures EPOLLOTHER !in e.ev ==> exists part :: Brought(g, v, e, stored, part)
  {
    var a, part, b := EventDoes(g, v, e);
    stored := |v.stored| - if EPOLLOTHER in e.ev then 0 else a;
    assert |v.received + part| == |v.received| + |part|;
    if EPOLLOTHER !in e.ev {
      MovedInNumbers(g, v, e, AfterEvent(g, v, e), a, part, b);
    }
  }

  // ---- whole runs ----

  /** What event k of a run does, in numbers; the events of a closed connection do nothing. */
  ghost predicate EventOk(g: Ring, v: View, events: seq<Event>, k: nat, a: nat, part: seq<byte>, b: nat)
    requires g.n >= 2 && k < |events|
  {
    var u, e, w := AfterRun(g, v, events[..k]), events[k], AfterRun(g, v, events[..k + 1]);
    && GoodView(g, u)
    && if !u.open || EPOLLOTHER in e.ev then part == [] && w == u.(open := false)
       else InNumbers(g, u, e, w, a, part, b)
  }

  lemma OkStays(g: Ring, v: View, events: seq<Event>, k: nat, a: nat, part: seq<byte>, b: nat)
    requires g.n >= 2 && k < |events| - 1 && EventOk(g, v, events[..|events| - 1], k, a, part, b)
    ensures EventOk(g, v, events, k, a, part, b)
  {
    assert events[..|events| - 1][..k] == events[..k];
    assert events[..|events| - 1][..k + 1] == events[..k + 1];
  }

  lemma LastEvent(g: Ring, v: View, events: seq<Event>) returns (a: nat, part: seq<byte>, b: nat)
    requires GoodView(g, v) && Echoes(v) && events != []
    ensures EventOk(g, v, events, |events| - 1, a, part, b)
    ensures AfterRun(g, v, events).received == AfterRun(g, v, events[..|events| - 1]).received + part
  {
    var l := |events| - 1;
    var u := AfterRun(g, v, events[..l]);
    RunEchoes(g, v, events[..l]);
    assert events[..l + 1] == events;
    a, part, b := 0, [], 0;
    if u.open {
      a, part, b := EventDoes(g, u, events[l]);
      if EPOLLOTHER !in events[l].ev {
        MovedInNumbers(g, u, events[l], AfterEvent(g, u, events[l]), a, part, b);
      }
    }
  }

  /** Everything received in a run is what its events bring, one after the other; and every event brings
      and sends all that it can. */
  lemma {:induction false} RunBrings(g: Ring, v: View, events: seq<Event>)
      returns (a: seq<nat>, parts: seq<seq<byte>>, b: seq<nat>)
    requires GoodView(g, v) && Echoes(v)
    ensures |a| == |parts| == |b| == |events| && AfterRun(g, v, events).received == v.received + Concat(parts)
    ensures forall k: nat :: k < |events| ==> EventOk(g, v, events, k, a[k], parts[k], b[k])
  {
    if events == [] {
      a, parts, b := [], [], [];
    } else {
      var l := |events| - 1;
      var before, beforeA, beforeB;
      beforeA, before, beforeB := RunBrings(g, v, events[..l]);
      var a1, part, b1 := LastEvent(g, v, events);
      a, parts, b := beforeA + [a1], before + [part], beforeB + [b1];
      assert parts[..l] == before;
      ConcatAssociates(v.received, Concat(before), part);
      forall k: nat | k < |events| ensures EventOk(g, v, events, k, a[k], parts[k], b[k]) {
        if k < l {
          OkStays(g, v, events, k, beforeA[k], before[k], beforeB[k]);
          assert a[k] == beforeA[k] && parts[k] == before[k] && b[k] == beforeB[k];
        } else {
          assert a[k] == a1 && parts[k] == part && b[k] == b1;
        }
      }
    }
  }

  /** One more event of a run that is still open. */
  lemma RunStep(g: Ring, v: View, events: seq<Event>, k: nat)
    requires g.n >= 2 && k < |events| && AfterRun(g, v, events[..k]).open
    ensures AfterRun(g, v, events[..k + 1]) == AfterEvent(g, AfterRun(g, v, events[..k]), events[k])
  {
    assert events[..k + 1][..k] == events[..k];
  }

  /** A run stays as its closing event has left it. */
  lemma {:induction false} ClosedStays(g: Ring, v: View, events: seq<Event>, k: nat)
    requires g.n >= 2 && k <= |events| && !AfterRun(g, v, events[..k]).open
    ensures AfterRun(g, v, events) == AfterRun(g, v, events[..k])
  {
    var l := |events| - 1;
    if k <= l {
      assert events[..l][..k] == events[..k];
      ClosedStays(g, v, events[..l], k);
    } else {
      assert events[..k] == events;
    }
  }
}
