/** What a connection that answers requests does with the bytes of each event, on values. */
module ResponseRuns {
  import opened Numbers
  import opened RingBuffers

  const REQUEST_SIZE: nat := 8

  /** A wake-up, and what the kernel does during it: the sends of handle_write, at most two receives,
      and the sends of handle_read. */
  datatype Event = Event(out: bool, inp: bool, other: bool, write: nat -> SendResult,
                         first: RecvResult, second: RecvResult, read: nat -> SendResult)

  /** A ring of `n` cells, and the response. */
  datatype Server = Server(n: nat, response: seq<byte>)

  /** The read cursor, the bytes stored, the responses owed and the position in the one being sent, the
      histories, and whether the connection is still open. */
  datatype View = View(f: nat, stored: seq<byte>, cnt: nat, pos: nat,
                       received: seq<byte>, requests: nat, sent: seq<byte>, open: bool)

  ghost predicate GoodServer(g: Server) {
    GoodSize(g.n) && g.n > REQUEST_SIZE && g.response != []
  }

  predicate Pending(g: Server, v: View) {
    v.cnt > 0 || v.pos < |g.response|
  }

  /** How many bytes are still to be sent. */
  function Owed(g: Server, v: View): nat
    requires v.pos <= |g.response|
  {
    v.cnt * |g.response| + (|g.response| - v.pos)
  }

  /** Byte after byte, copies of the response. */
  ghost predicate Copies(sent: seq<byte>, response: seq<byte>)
    requires response != []
  {
    forall i :: 0 <= i < |sent| ==> sent[i] == response[i % |response|]
  }

  /** Every byte received is of a decoded request or stored. */
  ghost predicate Buffered(g: Server, v: View) {
    && v.f < TWO_64 && |v.stored| <= g.n - 1
    && |v.received| == REQUEST_SIZE * v.requests + |v.stored| && v.stored == v.received[REQUEST_SIZE * v.requests..]
  }

  /** Every byte of a response owed is sent, in the response being sent, or in one not yet begun. */
  ghost predicate Accounted(g: Server, v: View)
    requires g.response != []
  {
    && v.pos <= |g.response| && |v.sent| + Owed(g, v) == |g.response| * v.requests
    && Copies(v.sent, g.response)
  }

  ghost predicate Good(g: Server, v: View) {
    GoodServer(g) && Buffered(g, v) && Accounted(g, v)
  }

  // ---- one event ----

  function Blank(g: Server, v: View): (segs: seq<Iovec>)
    requires g.n >= 2
    ensures 1 <= |segs| <= 2
  {
    BlankSegments(g.n, v.f, (v.f + |v.stored|) % TWO_64)
  }

  /** What one receive delivers into a segment. */
  function Part(r: RecvResult, seg: Iovec): seq<byte> {
    if r.Received? then r.bytes[..Min(|r.bytes|, seg.len)] else []
  }

  function Grown(v: View, bytes: seq<byte>): View {
    v.(stored := v.stored + bytes, received := v.received + bytes)
  }

  /** Receives into the segments in turn; the second is tried only when the first has been filled. */
  predicate Fills(segs: seq<Iovec>, first: RecvResult)
    requires segs != []
  {
    |segs| == 2 && !RecvEnds(first) && |Part(first, segs[0])| == segs[0].len
  }

  function IntoSegments(v: View, segs: seq<Iovec>, first: RecvResult, second: RecvResult): View
    requires segs != []
  {
    if RecvEnds(first) then v.(open := false)
    else
      var w := Grown(v, Part(first, segs[0]));
      if !Fills(segs, first) then w
      else if RecvEnds(second) then w.(open := false)
      else Grown(w, Part(second, segs[1]))
  }

  function AfterRecv(g: Server, v: View, first: RecvResult, second: RecvResult): View
    requires g.n >= 2
  {
    if |v.stored| == g.n - 1 then v else IntoSegments(v, Blank(g, v), first, second)
  }

  /** Two receives are made. */
  predicate TriesSecond(g: Server, v: View, first: RecvResult)
    requires g.n >= 2
  {
    |v.stored| < g.n - 1 && Fills(Blank(g, v), first)
  }

  /** The first request has been taken out of the ring. */
  function Decoded(v: View): View
    requires |v.stored| >= REQUEST_SIZE
  {
    v.(f := (v.f + REQUEST_SIZE) % TWO_64, stored := v.stored[REQUEST_SIZE..], cnt := v.cnt + 1, requests := v.requests + 1)
  }

  function AfterDecode(v: View): (w: View)
    ensures w.pos == v.pos && w.open == v.open && w.sent == v.sent && w.received == v.received
    decreases |v.stored|
  {
    if |v.stored| < REQUEST_SIZE then v else AfterDecode(Decoded(v))
  }

  /** The next response is begun when the last one has been sent. */
  function Begun(g: Server, v: View): View {
    if v.pos == |g.response| && v.cnt > 0 then v.(cnt := v.cnt - 1, pos := 0) else v
  }

  /** How much one send takes from the response position on. */
  function Taken(g: Server, v: View, r: SendResult): nat
    requires v.pos <= |g.response|
  {
    if r.Accepted? then Min(r.n, |g.response| - v.pos) else 0
  }

  function Advanced(g: Server, v: View, k: nat): View
    requires v.pos + k <= |g.response|
  {
    v.(pos := v.pos + k, sent := v.sent + g.response[v.pos..v.pos + k])
  }

  /** Sends until all is sent, the socket takes nothing, or a send fails; `call` counts the sends. */
  function AfterSend(g: Server, v: View, sends: nat -> SendResult, call: nat): (w: View)
    requires v.pos <= |g.response|
    ensures w.pos <= |g.response| && w.stored == v.stored && w.received == v.received && w.f == v.f && w.requests == v.requests
    decreases v.cnt, |g.response| - v.pos
  {
    if !Pending(g, v) then v
    else
      var b := Begun(g, v);
      if sends(call).SendFailed? then b.(open := false)
      else if Taken(g, b, sends(call)) == 0 then b
      else AfterSend(g, Advanced(g, b, Taken(g, b, sends(call))), sends, call + 1)
  }

  function AfterRequest(g: Server, v: View, first: RecvResult, second: RecvResult, read: nat -> SendResult): (w: View)
    requires g.n >= 2 && v.pos <= |g.response|
    ensures w.pos <= |g.response|
  {
    var w := AfterRecv(g, v, first, second);
    if w.open then AfterSend(g, AfterDecode(w), read, 0) else w
  }

  /** The view in which an event's receives find the connection. */
  function BeforeRequest(g: Server, v: View, e: Event): (w: View)
    requires v.pos <= |g.response|
    ensures w.pos <= |g.response|
  {
    if e.out then AfterSend(g, v, e.write, 0) else v
  }

  function AfterEvent(g: Server, v: View, e: Event): (w: View)
    requires g.n >= 2 && v.pos <= |g.response|
    ensures w.pos <= |g.response|
  {
    if e.other then v.(open := false)
    else
      var w := BeforeRequest(g, v, e);
      if w.open && e.inp then AfterRequest(g, w, e.first, e.second, e.read) else w
  }

  /** A run handles events until one closes the connection. */
  function AfterRun(g: Server, v: View, events: seq<Event>): (w: View)
    requires g.n >= 2 && v.pos <= |g.response|
    ensures w.pos <= |g.response|
  {
    if events == [] then v
    else
      var w := AfterRun(g, v, events[..|events| - 1]);
      if w.open then AfterEvent(g, w, events[|events| - 1]) else w
  }

  // ---- every step keeps the accounts ----

  /** The next byte to send is the one at the response position. */
  lemma Position(size: nat, sent: nat, requests: nat, cnt: nat, pos: nat)
    requires pos < size && sent + (cnt * size + (size - pos)) == size * requests
    ensures sent % size == pos
  {
    var q := requests - cnt - 1;
    assert size * requests == size * q + cnt * size + size;
    DivModUnique(sent, q, pos, size);
  }

  lemma OneMoreRequest(size: nat, cnt: nat, requests: nat)
    ensures (cnt + 1) * size == cnt * size + size && size * (requests + 1) == size * requests + size
  {
  }

  lemma OneResponseLess(size: nat, cnt: nat)
    requires cnt > 0
    ensures cnt * size == (cnt - 1) * size + size
  {
  }

  lemma OwedIsPending(g: Server, v: View)
    requires g.response != [] && v.pos <= |g.response|
    ensures Owed(g, v) > 0 <==> Pending(g, v)
  {
    if v.cnt > 0 {
      OneResponseLess(|g.response|, v.cnt);
    }
  }

  lemma CopiesGrow(sent: seq<byte>, response: seq<byte>, pos: nat, k: nat)
    requires response != [] && Copies(sent, response) && |sent| % |response| == pos && pos + k <= |response|
    ensures Copies(sent + response[pos..pos + k], response)
  {
    var s' := sent + response[pos..pos + k];
    forall i | 0 <= i < |s'| ensures s'[i] == response[i % |response|] {
      if i >= |sent| {
        var j := i - |sent|;
        assert i == |sent| / |response| * |response| + (pos + j);
        DivModUnique(i, |sent| / |response|, pos + j, |response|);
      }
    }
  }

  lemma SuffixGrows(s: seq<byte>, t: seq<byte>, k: nat)
    requires k <= |s|
    ensures (s + t)[k..] == s[k..] + t
  {
  }

  lemma GoodCursorsOf(g: Server, v: View)
    requires GoodServer(g) && v.f < TWO_64 && |v.stored| <= g.n - 1
    ensures var p := (v.f + |v.stored|) % TWO_64; GoodCursors(g.n, v.f, p) && Used(v.f, p) == |v.stored|
  {
    var p, w := (v.f + |v.stored|) % TWO_64, (v.f + |v.stored|) / TWO_64;
    assert p - v.f == -w * TWO_64 + |v.stored|;
    DivModUnique(p - v.f, -w, |v.stored|, TWO_64);
  }

  /** The segments offered have room for exactly what the ring can still take. */
  lemma BlankLengths(g: Server, v: View)
    requires GoodServer(g) && v.f < TWO_64 && |v.stored| <= g.n - 1
    ensures var segs := Blank(g, v); segs[0].len + (if |segs| == 2 then segs[1].len else 0) == g.n - 1 - |v.stored|
    ensures |v.stored| < g.n - 1 <==> Blank(g, v)[0].len > 0
  {
    var p := (v.f + |v.stored|) % TWO_64;
    GoodCursorsOf(g, v);
    BlankInOrder(g.n, v.f, p);
    CellsOf(Blank(g, v));
    FirstSegmentNonempty(g.n, v.f, p);
  }

  lemma GrownKept(g: Server, v: View, bytes: seq<byte>)
    requires Good(g, v) && |v.stored| + |bytes| <= g.n - 1
    ensures Good(g, Grown(v, bytes))
  {
    SuffixGrows(v.received, bytes, REQUEST_SIZE * v.requests);
  }

  lemma RecvKept(g: Server, v: View, first: RecvResult, second: RecvResult)
    requires Good(g, v)
    ensures Good(g, AfterRecv(g, v, first, second))
  {
    var segs := Blank(g, v);
    BlankLengths(g, v);
    if |v.stored| < g.n - 1 {
      var w := Grown(v, Part(first, segs[0]));
      GrownKept(g, v, Part(first, segs[0]));
      if TriesSecond(g, v, first) {
        GrownKept(g, w, Part(second, segs[1]));
      }
    }
  }

  lemma DecodedKept(g: Server, v: View)
    requires Good(g, v) && |v.stored| >= REQUEST_SIZE
    ensures Good(g, Decoded(v))
  {
    OneMoreRequest(|g.response|, v.cnt, v.requests);
    var k := REQUEST_SIZE * v.requests;
    assert v.received[k..][REQUEST_SIZE..] == v.received[k + REQUEST_SIZE..];
  }

  /** Every 8 bytes received have become one request, and one response owed. */
  lemma {:induction false} DecodeKept(g: Server, v: View)
    requires Good(g, v)
    ensures var w := AfterDecode(v);
      && Good(g, w) && |w.stored| < 8 && w.requests == |v.received| / 8
      && w.cnt - v.cnt == w.requests - v.requests
    decreases |v.stored|
  {
    if |v.stored| >= REQUEST_SIZE {
      DecodedKept(g, v);
      DecodeKept(g, Decoded(v));
    } else {
      DivModUnique(|v.received|, v.requests, |v.stored|, REQUEST_SIZE);
    }
  }

  lemma BegunKept(g: Server, v: View)
    requires Good(g, v)
    ensures Good(g, Begun(g, v)) && Owed(g, Begun(g, v)) == Owed(g, v)
    ensures Pending(g, v) <==> Begun(g, v).pos < |g.response|
  {
    if v.cnt > 0 {
      OneResponseLess(|g.response|, v.cnt);
    }
  }

  lemma AdvancedKept(g: Server, v: View, k: nat)
    requires Good(g, v) && v.pos < |g.response| && v.pos + k <= |g.response|
    ensures Good(g, Advanced(g, v, k)) && Owed(g, Advanced(g, v, k)) == Owed(g, v) - k
  {
    Position(|g.response|, |v.sent|, v.requests, v.cnt, v.pos);
    CopiesGrow(v.sent, g.response, v.pos, k);
  }

  // ---- what one call of send_response does ----

  /** A send to which the socket says to come back later, or of which it takes nothing. */
  predicate TakesNothing(r: SendResult) {
    r.SendWouldBlock? || r == Accepted(0)
  }

  predicate TakesSome(r: SendResult) {
    r.Accepted? && r.n > 0
  }

  /** One send that takes `k` bytes. */
  lemma SendStep(g: Server, v: View, k: nat)
    requires Good(g, v) && Pending(g, v) && Begun(g, v).pos + k <= |g.response|
    ensures var w := Advanced(g, Begun(g, v), k);
      Good(g, w) && v.sent <= w.sent && |w.sent| == |v.sent| + k && w.open == v.open
  {
    BegunKept(g, v);
    AdvancedKept(g, Begun(g, v), k);
  }

  lemma {:induction false} SendKept(g: Server, v: View, sends: nat -> SendResult, call: nat)
    requires Good(g, v)
    ensures Good(g, AfterSend(g, v, sends, call)) && v.sent <= AfterSend(g, v, sends, call).sent
    decreases v.cnt, |g.response| - v.pos
  {
    if Pending(g, v) {
      var k := Taken(g, Begun(g, v), sends(call));
      SendStep(g, v, k);
      BegunKept(g, v);
      if k > 0 {
        SendKept(g, Advanced(g, Begun(g, v), k), sends, call + 1);
      }
    }
  }

  /** Send number i takes `ks[i]` bytes: all that the kernel accepts of the rest of the response that is
      being sent, or else of the next one; `pos` is the position before the first of them. */
  predicate SendsRest(size: nat, pos: nat, sends: nat -> SendResult, call: nat, ks: seq<nat>, i: nat)
    requires size > 0 && i < |ks|
  {
    sends(call + i).Accepted? && 0 < ks[i] == Min(sends(call + i).n, size - (pos + Total(ks[..i])) % size)
  }

  ghost predicate AllSendRest(size: nat, pos: nat, sends: nat -> SendResult, call: nat, ks: seq<nat>)
    requires size > 0
  {
    forall i: nat :: i < |ks| ==> SendsRest(size, pos, sends, call, ks, i)
  }

  /** A position at the end of one response is the start of the next. */
  lemma WholeResponse(size: nat, pos: nat, begun: nat, k: nat)
    requires pos <= size && begun < size && (begun == pos || (begun == 0 && pos == size))
    ensures (pos + k) % size == (begun + k) % size && pos % size == begun
  {
    if begun != pos {
      ModAdd(k, 1, size);
      DivModUnique(size, 1, 0, size);
    } else {
      DivModUnique(pos, 0, pos, size);
    }
  }

  /** One send and then the rest of them. */
  lemma OneMoreSend(size: nat, pos: nat, begun: nat, sends: nat -> SendResult, call: nat, k: nat, rest: seq<nat>)
    requires pos <= size && begun < size && (begun == pos || (begun == 0 && pos == size))
    requires sends(call).Accepted? && 0 < k == Min(sends(call).n, size - begun)
    requires AllSendRest(size, begun + k, sends, call + 1, rest)
    ensures AllSendRest(size, pos, sends, call, [k] + rest)
    ensures (pos + Total([k] + rest)) % size == (begun + k + Total(rest)) % size
  {
    var ks := [k] + rest;
    assert ks[1..] == rest;
    WholeResponse(size, pos, begun, 0);
    WholeResponse(size, pos, begun, k + Total(rest));
    forall i: nat | i < |ks| ensures SendsRest(size, pos, sends, call, ks, i) {
      if i == 0 {
        assert ks[..0] == [];
      } else {
        assert SendsRest(size, begun + k, sends, call + 1, rest, i - 1);
        assert ks[..i][1..] == rest[..i - 1] && ks[..i][0] == k;
        WholeResponse(size, pos, begun, k + Total(rest[..i - 1]));
        assert call + 1 + (i - 1) == call + i;
      }
    }
  }

  /** The loop makes some sends, each of which takes all it can.  It then stops with everything owed sent,
      at a send that takes nothing, or at one that fails, and closes the connection only then. */
  lemma {:induction false} SendLoop(g: Server, v: View, sends: nat -> SendResult, call: nat) returns (ks: seq<nat>)
    requires g.response != [] && v.pos <= |g.response| && v.open
    ensures AllSendRest(|g.response|, v.pos, sends, call, ks)
    ensures var w := AfterSend(g, v, sends, call);
      && |w.sent| == |v.sent| + Total(ks) && w.pos % |g.response| == (v.pos + Total(ks)) % |g.response|
      && (w.open ==> !Pending(g, w) || TakesNothing(sends(call + |ks|)))
      && (!w.open ==> Pending(g, w) && sends(call + |ks|).SendFailed?)
    decreases v.cnt, |g.response| - v.pos
  {
    ks := [];
    if Pending(g, v) {
      var b := Begun(g, v);
      var k := Taken(g, b, sends(call));
      WholeResponse(|g.response|, v.pos, b.pos, 0);
      if k > 0 {
        var rest := SendLoop(g, Advanced(g, b, k), sends, call + 1);
        ks := [k] + rest;
        OneMoreSend(|g.response|, v.pos, b.pos, sends, call, k, rest);
      }
    }
  }

  lemma SendsTakeSome(size: nat, pos: nat, sends: nat -> SendResult, ks: seq<nat>)
    requires size > 0 && AllSendRest(size, pos, sends, 0, ks)
    ensures forall k: nat :: k < |ks| ==> TakesSome(sends(k))
  {
    forall k: nat | k < |ks| ensures TakesSome(sends(k)) {
      assert SendsRest(size, pos, sends, 0, ks, k);
      assert 0 + k == k;
    }
  }

  /** The first call of the loop: its taking sends come first, and then what ends it. */
  lemma SendCount(g: Server, v: View, sends: nat -> SendResult) returns (m: nat)
    requires g.response != [] && v.pos <= |g.response| && v.open
    ensures forall k: nat :: k < m ==> TakesSome(sends(k))
    ensures var w := AfterSend(g, v, sends, 0);
      && (w.open ==> !Pending(g, w) || TakesNothing(sends(m)))
      && (!w.open ==> Pending(g, w) && sends(m).SendFailed?)
  {
    var ks := SendLoop(g, v, sends, 0);
    m := |ks|;
    SendsTakeSome(|g.response|, v.pos, sends, ks);
    assert 0 + |ks| == m;
  }

  // ---- what one event does ----

  /** The event reaches its receives. */
  predicate Reads(g: Server, v: View, e: Event)
    requires v.pos <= |g.response|
  {
    !e.other && e.inp && BeforeRequest(g, v, e).open
  }

  lemma BeforeKept(g: Server, v: View, e: Event)
    requires Good(g, v) && v.open
    ensures Good(g, BeforeRequest(g, v, e)) && v.sent <= BeforeRequest(g, v, e).sent
  {
    SendKept(g, v, e.write, 0);
  }

  lemma RequestKept(g: Server, v: View, e: Event)
    requires Good(g, v) && v.open
    ensures var w := AfterRequest(g, v, e.first, e.second, e.read);
      Good(g, w) && v.sent <= w.sent && (w.open ==> |w.stored| < REQUEST_SIZE)
  {
    var w := AfterRecv(g, v, e.first, e.second);
    RecvKept(g, v, e.first, e.second);
    if w.open {
      DecodeKept(g, w);
      SendKept(g, AfterDecode(w), e.read, 0);
    }
  }

  /** Whatever an event does, the accounts stay exact, and an open connection is left without a
      whole request. */
  lemma EventKept(g: Server, v: View, e: Event)
    requires Good(g, v) && v.open && |v.stored| < REQUEST_SIZE
    ensures var w := AfterEvent(g, v, e);
      Good(g, w) && v.sent <= w.sent && (w.open ==> |w.stored| < REQUEST_SIZE)
  {
    BeforeKept(g, v, e);
    if Reads(g, v, e) {
      RequestKept(g, BeforeRequest(g, v, e), e);
    }
  }

  /** The bytes that an event's receives bring. */
  function Brings(g: Server, v: View, e: Event): seq<byte>
    requires g.n >= 2 && v.pos <= |g.response|
  {
    if !Reads(g, v, e) || |v.stored| == g.n - 1 then []
    else Part(e.first, Blank(g, v)[0]) + if TriesSecond(g, v, e.first) then Part(e.second, Blank(g, v)[1]) else []
  }

  /** The second receive is made exactly if there are two blank segments and the first receive delivers
      at least what the first of them holds. */
  lemma SecondReceive(g: Server, v: View, first: RecvResult)
    requires Good(g, v) && |v.stored| < REQUEST_SIZE
    ensures var segs := BlankSegments(g.n, v.f, (v.f + |v.stored|) % TWO_64);
      && segs[0].len > 0
      && (TriesSecond(g, v, first) <==> |segs| == 2 && first.Received? && |first.bytes| >= segs[0].len)
  {
    BlankLengths(g, v);
  }

  /** An event brings a prefix of what its first receive delivers and then, if that has filled the
      first of two segments, of its second: all of it unless the segment, or the ring, is full afterwards,
      and something whenever anything is there, since a ring without a whole request has room. */
  lemma EventBrings(g: Server, v: View, e: Event) returns (a: seq<byte>, b: seq<byte>)
    requires Good(g, v) && v.open && |v.stored| < REQUEST_SIZE
    ensures AfterEvent(g, v, e).received == v.received + Brings(g, v, e) && Brings(g, v, e) == a + b
    ensures a != [] <==> Reads(g, v, e) && e.first.Received? && e.first.bytes != []
    ensures var segs := BlankSegments(g.n, v.f, (v.f + |v.stored|) % TWO_64);
      && (a != [] ==> a <= e.first.bytes && (a == e.first.bytes || |a| == segs[0].len) && |a| <= segs[0].len)
      && (b != [] <==>
           && Reads(g, v, e) && |segs| == 2 && e.first.Received? && |e.first.bytes| >= segs[0].len
           && e.second.Received? && e.second.bytes != [])
    ensures b != [] ==> b <= e.second.bytes && (b == e.second.bytes || |v.stored| + |a| + |b| == g.n - 1)
  {
    var u := BeforeRequest(g, v, e);
    BlankLengths(g, v);
    SecondReceive(g, v, e.first);
    a, b := [], [];
    if Reads(g, v, e) {
      a := Part(e.first, Blank(g, v)[0]);
      if TriesSecond(g, v, e.first) {
        b := Part(e.second, Blank(g, v)[1]);
      }
      RecvBrings(g, u, e.first, e.second, a, b);
    }
  }

  lemma RecvBrings(g: Server, v: View, first: RecvResult, second: RecvResult, a: seq<byte>, b: seq<byte>)
    requires g.n >= 2 && |v.stored| < g.n - 1 && a == Part(first, Blank(g, v)[0])
    requires b == if TriesSecond(g, v, first) then Part(second, Blank(g, v)[1]) else []
    ensures AfterRecv(g, v, first, second).received == v.received + (a + b)
  {
    ConcatAssociates(v.received, a, b);
  }

  /** The sends before number m all take something, and number m fails. */
  ghost predicate FailsAt(sends: nat -> SendResult, m: nat) {
    sends(m).SendFailed? && forall k: nat :: k < m ==> TakesSome(sends(k))
  }

  /** The sends fail exactly if one of them does before everything owed is sent. */
  lemma SendCloses(g: Server, v: View, sends: nat -> SendResult) returns (m: nat)
    requires Good(g, v) && v.open
    ensures !AfterSend(g, v, sends, 0).open <==> FailsAt(sends, m) && Pending(g, AfterSend(g, v, sends, 0))
  {
    m := SendCount(g, v, sends);
  }

  lemma RequestCloses(g: Server, v: View, e: Event) returns (m: nat)
    requires Good(g, v) && v.open && |v.stored| < REQUEST_SIZE
    ensures var w := AfterRequest(g, v, e.first, e.second, e.read);
      !w.open <==>
        || RecvEnds(e.first) || (TriesSecond(g, v, e.first) && RecvEnds(e.second))
        || (FailsAt(e.read, m) && Pending(g, w))
  {
    var w := AfterRecv(g, v, e.first, e.second);
    RecvKept(g, v, e.first, e.second);
    m := 0;
    if w.open {
      DecodeKept(g, w);
      m := SendCloses(g, AfterDecode(w), e.read);
    }
  }

  /** An event closes the connection exactly if it reports something unknown, a receive that it makes
      fails or meets the end of the stream, or a send fails that it makes while some is pending. */
  lemma EventCloses(g: Server, v: View, e: Event) returns (m: nat, k: nat)
    requires Good(g, v) && v.open && |v.stored| < REQUEST_SIZE
    ensures var u, w, segs := BeforeRequest(g, v, e), AfterEvent(g, v, e), BlankSegments(g.n, v.f, (v.f + |v.stored|) % TWO_64);
      !w.open <==>
        || e.other || (e.out && FailsAt(e.write, m) && Pending(g, u))
        || (Reads(g, v, e) && RecvEnds(e.first))
        || (Reads(g, v, e) && |segs| == 2 && e.first.Received? && |e.first.bytes| >= segs[0].len && RecvEnds(e.second))
        || (Reads(g, v, e) && FailsAt(e.read, k) && Pending(g, w))
  {
    var u := BeforeRequest(g, v, e);
    BeforeKept(g, v, e);
    SecondReceive(g, v, e.first);
    m := SendCloses(g, v, e.write);
    k := 0;
    if Reads(g, v, e) {
      SameSegments(g, v, u, e.first);
      k := RequestCloses(g, u, e);
    }
  }

  /** Only the position modulo the response's length matters. */
  lemma SamePosition(size: nat, p: nat, q: nat, sends: nat -> SendResult, ks: seq<nat>)
    requires size > 0 && p % size == q % size && AllSendRest(size, p, sends, 0, ks)
    ensures AllSendRest(size, q, sends, 0, ks)
  {
    forall i: nat | i < |ks| ensures SendsRest(size, q, sends, 0, ks, i) {
      assert SendsRest(size, p, sends, 0, ks, i);
      SumModulo(size, p, q, Total(ks[..i]));
    }
  }

  lemma SumModulo(size: nat, p: nat, q: nat, t: nat)
    requires size > 0 && p % size == q % size
    ensures (p + t) % size == (q + t) % size
  {
    assert p + t == (p % size + t) + p / size * size && q + t == (q % size + t) + q / size * size;
    ModAdd(p % size + t, p / size, size);
    ModAdd(q % size + t, q / size, size);
  }

  /** The sends of handle_write, if it is called. */
  lemma WriteSends(g: Server, v: View, e: Event) returns (ks: seq<nat>)
    requires g.response != [] && v.pos <= |g.response| && v.open
    ensures AllSendRest(|g.response|, v.pos, e.write, 0, ks) && (ks != [] ==> e.out)
    ensures var u, size := BeforeRequest(g, v, e), |g.response|;
      && |u.sent| == |v.sent| + Total(ks) && u.pos % size == (v.pos + Total(ks)) % size
      && (e.out && u.open ==> !Pending(g, u) || TakesNothing(e.write(|ks|)))
  {
    ks := [];
    if e.out {
      ks := SendLoop(g, v, e.write, 0);
      assert 0 + |ks| == |ks|;
    }
  }

  /** The sends of handle_read. */
  lemma RequestSends(g: Server, v: View, first: RecvResult, second: RecvResult, read: nat -> SendResult) returns (ls: seq<nat>)
    requires Good(g, v) && v.open
    ensures AllSendRest(|g.response|, v.pos, read, 0, ls)
    ensures var w := AfterRequest(g, v, first, second, read);
      |w.sent| == |v.sent| + Total(ls) && (w.open ==> !Pending(g, w) || TakesNothing(read(|ls|)))
  {
    ls := [];
    var w := AfterRecv(g, v, first, second);
    if w.open {
      ls := SendLoop(g, AfterDecode(w), read, 0);
      assert 0 + |ls| == |ls|;
    }
  }

  /** What the sends of an event take: all that the kernel accepts of the response being sent, or of the next
      one, in handle_write and then in handle_read; each call goes on until nothing is owed or the socket
      takes nothing. */
  lemma EventSends(g: Server, v: View, e: Event) returns (ks: seq<nat>, ls: seq<nat>)
    requires Good(g, v) && v.open
    ensures var u, w, size := BeforeRequest(g, v, e), AfterEvent(g, v, e), |g.response|;
      && |w.sent| == |v.sent| + Total(ks) + Total(ls)
      && AllSendRest(size, v.pos, e.write, 0, ks) && AllSendRest(size, v.pos + Total(ks), e.read, 0, ls)
      && (ks != [] ==> e.out && !e.other) && (ls != [] ==> Reads(g, v, e))
      && (e.out && !e.other && u.open ==> !Pending(g, u) || TakesNothing(e.write(|ks|)))
      && (Reads(g, v, e) && w.open ==> !Pending(g, w) || TakesNothing(e.read(|ls|)))
  {
    ks, ls := [], [];
    if !e.other {
      ks := WriteSends(g, v, e);
      if Reads(g, v, e) {
        var u := BeforeRequest(g, v, e);
        BeforeKept(g, v, e);
        ls := RequestSends(g, u, e.first, e.second, e.read);
        SamePosition(|g.response|, u.pos, v.pos + Total(ks), e.read, ls);
      }
    }
  }

  /** Sending does not move the ring. */
  lemma SameSegments(g: Server, v: View, u: View, first: RecvResult)
    requires g.n >= 2 && u.f == v.f && u.stored == v.stored
    ensures Blank(g, u) == Blank(g, v) && TriesSecond(g, u, first) == TriesSecond(g, v, first)
  {
  }

  /** A peer that takes something of every send. */
  ghost predicate Willing(sends: nat -> SendResult) {
    forall k: nat :: TakesSome(sends(k))
  }

  lemma WillingGetsAll(g: Server, v: View, sends: nat -> SendResult)
    requires Good(g, v) && v.open && Willing(sends)
    ensures var w := AfterSend(g, v, sends, 0); w.open && !Pending(g, w) && Good(g, w)
  {
    SendKept(g, v, sends, 0);
    var m := SendCount(g, v, sends);
    assert TakesSome(sends(m));
  }

  /** With a peer that takes what is sent, an event that reports input or output leaves nothing owed. */
  lemma EventAnswers(g: Server, v: View, e: Event)
    requires Good(g, v) && v.open && Willing(e.write) && Willing(e.read) && (e.out || e.inp)
    ensures AfterEvent(g, v, e).open ==> !Pending(g, AfterEvent(g, v, e))
  {
    WillingGetsAll(g, v, e.write);
    if Reads(g, v, e) {
      var w := AfterRecv(g, BeforeRequest(g, v, e), e.first, e.second);
      BeforeKept(g, v, e);
      RecvKept(g, BeforeRequest(g, v, e), e.first, e.second);
      if w.open {
        DecodeKept(g, w);
        WillingGetsAll(g, AfterDecode(w), e.read);
      }
    }
  }

  // ---- whole runs ----

  /** In every run the accounts are exact: the bytes sent are copies of the response, as many as the
      requests decoded have earned but for what is owed. */
  lemma {:induction false} RunKept(g: Server, v: View, events: seq<Event>)
    requires Good(g, v) && v.open && |v.stored| < REQUEST_SIZE
    ensures var w := AfterRun(g, v, events);
      Good(g, w) && v.sent <= w.sent && (w.open ==> |w.stored| < REQUEST_SIZE)
  {
    if events != [] {
      var l := |events| - 1;
      RunKept(g, v, events[..l]);
      if AfterRun(g, v, events[..l]).open {
        EventKept(g, AfterRun(g, v, events[..l]), events[l]);
      }
    }
  }

  /** What event k of a run brings. */
  ghost function PartOf(g: Server, v: View, events: seq<Event>, k: nat): seq<byte>
    requires g.n >= 2 && v.pos <= |g.response| && k < |events|
  {
    var w := AfterRun(g, v, events[..k]);
    if w.open then Brings(g, w, events[k]) else []
  }

  lemma LastPart(g: Server, v: View, events: seq<Event>)
    requires Good(g, v) && v.open && |v.stored| < REQUEST_SIZE && events != []
    ensures var l := |events| - 1;
      AfterRun(g, v, events).received == AfterRun(g, v, events[..l]).received + PartOf(g, v, events, l)
  {
    var l := |events| - 1;
    RunKept(g, v, events[..l]);
    if AfterRun(g, v, events[..l]).open {
      var _, _ := EventBrings(g, AfterRun(g, v, events[..l]), events[l]);
    }
  }

  lemma PartStays(g: Server, v: View, events: seq<Event>, k: nat)
    requires g.n >= 2 && v.pos <= |g.response| && k < |events| - 1
    ensures PartOf(g, v, events, k) == PartOf(g, v, events[..|events| - 1], k)
  {
    assert events[..|events| - 1][..k] == events[..k];
  }

  /** Everything received in a run is what its events bring, one after the other. */
  lemma {:induction false} RunBrings(g: Server, v: View, events: seq<Event>) returns (parts: seq<seq<byte>>)
    requires Good(g, v) && v.open && |v.stored| < REQUEST_SIZE
    ensures |parts| == |events| && AfterRun(g, v, events).received == v.received + Concat(parts)
    ensures forall k: nat :: k < |events| ==> parts[k] == PartOf(g, v, events, k)
  {
    if events == [] {
      parts := [];
    } else {
      var l := |events| - 1;
      var before := RunBrings(g, v, events[..l]);
      LastPart(g, v, events);
      parts := before + [PartOf(g, v, events, l)];
      assert parts[..l] == before;
      ConcatAssociates(v.received, Concat(before), parts[l]);
      forall k: nat | k < l ensures parts[k] == PartOf(g, v, events, k) {
        PartStays(g, v, events, k);
      }
    }
  }

  /** One response for each 8 bytes received: all of them are sent once the connection has handled an
      event with a peer that takes what is sent. */
  lemma RunAnswers(g: Server, v: View, events: seq<Event>)
    requires Good(g, v) && v.open && |v.stored| < REQUEST_SIZE && events != []
    requires var e := events[|events| - 1]; Willing(e.write) && Willing(e.read) && (e.out || e.inp)
    ensures var w := AfterRun(g, v, events);
      w.open ==> |w.sent| == |g.response| * (|w.received| / 8) && Copies(w.sent, g.response)
  {
    var l := |events| - 1;
    var u, w := AfterRun(g, v, events[..l]), AfterRun(g, v, events);
    RunKept(g, v, events[..l]);
    RunKept(g, v, events);
    if w.open {
      EventAnswers(g, u, events[l]);
      OwedIsPending(g, w);
      DivModUnique(|w.received|, w.requests, |w.stored|, REQUEST_SIZE);
    }
  }

  /** One more event of a run that is still open. */
  lemma RunStep(g: Server, v: View, events: seq<Event>, k: nat)
    requires g.n >= 2 && v.pos <= |g.response| && k < |events| && AfterRun(g, v, events[..k]).open
    ensures AfterRun(g, v, events[..k + 1]) == AfterEvent(g, AfterRun(g, v, events[..k]), events[k])
  {
    assert events[..k + 1][..k] == events[..k];
  }

  /** A run stays as its closing event has left it. */
  lemma {:induction false} ClosedStays(g: Server, v: View, events: seq<Event>, k: nat)
    requires g.n >= 2 && v.pos <= |g.response| && k <= |events| && !AfterRun(g, v, events[..k]).open
    ensures AfterRun(g, v, events) == AfterRun(g, v, events[..k])
  {
    var l := |events| - 1;
    if k <= l {
      assert events[..l][..k] == events[..k];
      ClosedStays(g, v, events[..l], k);
    } else {
      assert events[..k] == events;
    }
  }
}
