/** A server that answers every 8-byte request with one copy of a large response, sent piece by
    piece as the socket takes it. */
module ResponseServer {
  import opened Numbers
  import opened RingBuffers
  import opened ResponseRuns

  // ---- the second segment ----

  lemma Boundary(n: nat, p: nat)
    requires GoodSize(n)
    ensures (p + (n - p % n)) % TWO_64 % n == 0
  {
    WrapKeepsCell(p + (n - p % n), n);
    assert p + (n - p % n) == (p / n + 1) * n;
    DivModUnique(p + (n - p % n), p / n + 1, 0, n);
  }

  /** When the first of two blank segments has been filled, the second is the first blank one. */
  lemma SecondSegment(n: nat, f: nat, p: nat, p': nat)
    requires GoodCursors(n, f, p) && |BlankSegments(n, f, p)| == 2
    requires p' == (p + BlankSegments(n, f, p)[0].len) % TWO_64
    ensures BlankSegments(n, f, p')[0] == BlankSegments(n, f, p)[1] && BlankSegments(n, f, p)[1].len > 0
  {
    Boundary(n, p);
  }

  // ---- the connection ----

  class Connection {
    const buf: RingBuffer
    const response: seq<byte>
    var responseCnt: nat
    var responsePos: nat
    var enableEpollout: bool
    /** EPOLLOUT in the mask last given to epoll_ctl. */
    var kernelOut: bool
    ghost var received: seq<byte>
    ghost var requests: nat
    ghost var sent: seq<byte>

    ghost function Server(): (g: ResponseRuns.Server) {
      ResponseRuns.Server(buf.n, response)
    }

    /** The connection as events see it. */
    ghost function Now(open: bool): (v: View)
      reads this, buf, buf.buf
      requires buf.Valid()
      ensures (v.f + |v.stored|) % TWO_64 == buf.p
    {
      WriteCursor(buf.f, buf.p);
      View(buf.f, buf.Contents(), responseCnt, responsePos, received, requests, sent, open)
    }

    /** Every byte received is of a decoded request or buffered; every byte of a response owed is
        sent, in the response being sent, or in one not yet begun. */
    ghost predicate Valid()
      reads this, buf, buf.buf
    {
      buf.Valid() && Good(Server(), Now(true)) && kernelOut == enableEpollout
    }

    /** Between wake-ups: output is waited for exactly while some is pending, and no whole request
        is left in the buffer. */
    ghost predicate Settled()
      requires Valid()
      reads this, buf, buf.buf
    {
      (kernelOut <==> Pending(Server(), Now(true))) && |buf.Contents()| < REQUEST_SIZE
    }

    constructor (size: nat, response: seq<byte>)
      requires GoodSize(size) && size > REQUEST_SIZE && response != []
      ensures Valid() && Settled() && fresh(buf) && fresh(buf.buf)
      ensures buf.n == size && this.response == response && received == [] && sent == [] && requests == 0
    {
      this.response := response;
      buf := new RingBuffer(size);
      responseCnt, responsePos := 0, |response|;
      enableEpollout, kernelOut := false, false;
      received, sent, requests := [], [], 0;
    }

    method SetEpollout(flag: bool)
      modifies this`enableEpollout, this`kernelOut
      ensures enableEpollout == kernelOut == flag
    {
      kernelOut := flag;
      enableEpollout := flag;
    }

    /** One recv on the first blank segment. */
    method Recv(v: Iovec, r: RecvResult) returns (recvLen: int, ghost bytes: seq<byte>)
      requires buf.Valid() && v == BlankSegments(buf.n, buf.f, buf.p)[0]
      modifies buf.buf
      ensures buf.Contents() == old(buf.Contents())
      ensures bytes == Part(r, v) && recvLen == if r.Received? then |bytes| else -1
      ensures Placed(buf.buf[..], Cells(BlankSegments(buf.n, buf.f, buf.p)), bytes)
    {
      if !r.Received? {
        return -1, [];
      }
      ghost var segs := BlankSegments(buf.n, buf.f, buf.p);
      BlankCells(buf.n, buf.f, buf.p);
      FirstCells(segs);
      assert segs[..1] == [v];
      recvLen := Min(|r.bytes|, v.len);
      bytes := r.bytes[..recvLen];
      buf.Deliver(Cells([v]), r.bytes[..recvLen]);
    }

    /** What the loop of recv_buf_native does with one segment. */
    method RecvSegment(v: Iovec, r: RecvResult) returns (recvLen: int)
      requires buf.Valid() && v == BlankSegments(buf.n, buf.f, buf.p)[0] && v.len > 0
      modifies this`received, buf`p, buf.buf
      ensures buf.Valid() && recvLen == if RecvEnds(r) then -1 else |Part(r, v)|
      ensures Now(true) == if RecvEnds(r) then old(Now(true)) else Grown(old(Now(true)), Part(r, v))
      ensures recvLen >= 0 ==> buf.p == (old(buf.p) + recvLen) % TWO_64
    {
      ghost var bytes;
      recvLen, bytes := Recv(v, r);
      if recvLen == 0 {
        return -1;
      }
      if recvLen < 0 {
        if r.RecvWouldBlock? {
          recvLen := 0;
        } else {
          return -1;
        }
      }
      Append(bytes, recvLen);
    }

    /** add_exist of the bytes that the kernel has placed. */
    method Append(ghost bytes: seq<byte>, recvLen: nat)
      requires buf.Valid() && recvLen == |bytes| && Placed(buf.buf[..], Cells(BlankSegments(buf.n, buf.f, buf.p)), bytes)
      modifies this`received, buf`p
      ensures buf.Valid() && buf.p == (old(buf.p) + recvLen) % TWO_64
      ensures Now(true) == Grown(old(Now(true)), bytes)
    {
      buf.AddExist(recvLen, bytes);
      received := received + bytes;
    }

    /** The loop of recv_buf_native: receives into the blank segments in turn. */
    method RecvSegments(iov: array<Iovec>, iovLen: nat, first: RecvResult, second: RecvResult) returns (ret: int)
      requires buf.Valid() && 1 <= iovLen <= iov.Length && iov[..iovLen] == BlankSegments(buf.n, buf.f, buf.p)
      requires iov[0].len > 0
      modifies this`received, buf`p, buf.buf
      ensures buf.Valid() && ret >= -1 && Now(ret >= 0) == IntoSegments(old(Now(true)), old(iov[..iovLen]), first, second)
      ensures ret >= 0 ==> |received| == |old(received)| + ret
    {
      ghost var segs, v, p0 := iov[..iovLen], Now(true), buf.p;
      ret := 0;
      var i := 0;
      while i < iovLen
        invariant i <= iovLen && buf.Valid() && ret >= 0 && iov[..iovLen] == segs
        invariant i < iovLen ==> iov[i] == BlankSegments(buf.n, buf.f, buf.p)[0] && iov[i].len > 0
        invariant i == 0 ==> Now(true) == v && buf.p == p0
        invariant i > 0 ==> !RecvEnds(first) && |Part(first, segs[0])| == segs[0].len
        invariant i == 1 ==> Now(true) == Grown(v, Part(first, segs[0]))
        invariant i == 2 ==> Now(true) == IntoSegments(v, segs, first, second)
        invariant |received| == |old(received)| + ret
      {
        var recvLen := RecvSegment(iov[i], if i == 0 then first else second);
        if recvLen < 0 {
          return -1;
        }
        ret := ret + recvLen;
        if recvLen < iov[i].len {
          break;
        }
        if i == 0 && iovLen == 2 {
          SecondSegment(buf.n, buf.f, p0, buf.p);
        }
        i := i + 1;
      }
    }

    method RecvBufNative(first: RecvResult, second: RecvResult) returns (ret: int)
      requires buf.Valid()
      modifies this`received, buf`p, buf.buf
      ensures buf.Valid() && ret >= -1 && Now(ret >= 0) == AfterRecv(Server(), old(Now(true)), first, second)
      ensures ret >= 0 ==> |received| == |old(received)| + ret
    {
      var blank := buf.GetBlankSize();
      if blank <= 0 {
        return 0;
      }
      var iov := new Iovec[2];
      var iovLen := buf.GetBlankIovec(iov);
      FirstSegmentNonempty(buf.n, buf.f, buf.p);
      ret := RecvSegments(iov, iovLen, first, second);
    }

    method RecvRequest(first: RecvResult, second: RecvResult, read: nat -> SendResult) returns (ret: int)
      requires Valid() && Settled()
      modifies this, buf, buf.buf
      ensures Valid() && (ret == 0 || ret == -1) && (ret == 0 ==> Settled())
      ensures Now(ret == 0) == AfterRequest(Server(), old(Now(true)), first, second, read)
    {
      ghost var v := Now(true);
      RecvKept(Server(), v, first, second);
      var got := RecvBufNative(first, second);
      if got < 0 {
        return -1;
      }
      DecodeRequests();
      var done := SendResponse(read);
      if done < 0 {
        return -1;
      }
      return 0;
    }

    /** Takes the whole requests out of the buffer. */
    method DecodeRequests()
      requires Valid()
      modifies this`responseCnt, this`requests, buf`f
      ensures Valid() && Now(true) == AfterDecode(old(Now(true)))
      ensures |buf.Contents()| < REQUEST_SIZE && requests == |received| / REQUEST_SIZE
      ensures responseCnt == old(responseCnt) + (requests - old(requests))
    {
      DecodeKept(Server(), Now(true));
      var size := buf.GetExistSize();
      while size >= REQUEST_SIZE
        invariant buf.Valid() && size == |buf.Contents()| && AfterDecode(Now(true)) == AfterDecode(old(Now(true)))
      {
        TakeRequest();
        size := buf.GetExistSize();
      }
    }

    method TakeRequest()
      requires buf.Valid() && |buf.Contents()| >= REQUEST_SIZE
      modifies this`responseCnt, this`requests, buf`f
      ensures buf.Valid() && Now(true) == Decoded(old(Now(true)))
    {
      responseCnt := responseCnt + 1;
      buf.AddBlank(REQUEST_SIZE);
      requests := requests + 1;
    }

    /** Sends what is pending until it is all sent or the socket takes nothing. */
    method SendResponse(sends: nat -> SendResult) returns (ret: int)
      requires Valid() && (kernelOut ==> Pending(Server(), Now(true)))
      modifies this`responseCnt, this`responsePos, this`enableEpollout, this`kernelOut, this`sent
      ensures Valid() && (ret == 0 || ret == -1) && Now(ret == 0) == AfterSend(Server(), old(Now(true)), sends, 0)
      ensures ret == 0 ==> (kernelOut <==> Pending(Server(), Now(true)))
    {
      ghost var g, v := Server(), Now(true);
      var call := 0;
      while responseCnt > 0 || responsePos < |response|
        invariant Valid() && (kernelOut ==> Pending(g, Now(true)))
        invariant AfterSend(g, Now(true), sends, call) == AfterSend(g, v, sends, 0)
        decreases responseCnt, |response| - responsePos
      {
        var sendLen := SendOnce(sends(call));
        if sendLen < 0 {
          return -1;
        }
        call := call + 1;
        var stop := UpdateInterest(sendLen);
        if stop {
          break;
        }
      }
      return 0;
    }

    /** One send from the response position on. */
    method SendOnce(r: SendResult) returns (sendLen: int)
      requires Valid() && Pending(Server(), Now(true))
      modifies this`responseCnt, this`responsePos, this`sent
      ensures var b := Begun(Server(), old(Now(true)));
        && Valid() && sendLen == (if r.SendFailed? then -1 else Taken(Server(), b, r))
        && Now(true) == if r.SendFailed? then b else Advanced(Server(), b, Taken(Server(), b, r))
      ensures sendLen <= 0 ==> Pending(Server(), Now(true))
    {
      Begin();
      sendLen := if r.Accepted? then Min(r.n, |response| - responsePos) else -1;
      if sendLen < 0 {
        if r.SendWouldBlock? {
          sendLen := 0;
        } else {
          return -1;
        }
      }
      AdvancedKept(Server(), Now(true), sendLen);
      sent := sent + response[responsePos..responsePos + sendLen];
      responsePos := responsePos + sendLen;
    }

    /** Waits for output while some is pending and the socket takes none. */
    method UpdateInterest(sendLen: nat) returns (stop: bool)
      requires Valid() && (sendLen == 0 ==> Pending(Server(), Now(true)))
      modifies this`enableEpollout, this`kernelOut
      ensures Valid() && (stop <==> sendLen == 0)
      ensures !Pending(Server(), Now(true)) ==> !kernelOut
      ensures Pending(Server(), Now(true)) ==> kernelOut == (stop || old(kernelOut))
    {
      if responseCnt == 0 && responsePos == |response| {
        if enableEpollout {
          SetEpollout(false);
        }
      } else if sendLen == 0 {
        if !enableEpollout {
          SetEpollout(true);
        }
        return true;
      }
      return false;
    }

    /** Takes the next response when the last one has been sent. */
    method Begin()
      requires Valid() && Pending(Server(), Now(true))
      modifies this`responseCnt, this`responsePos
      ensures Valid() && Now(true) == Begun(Server(), old(Now(true))) && responsePos < |response|
    {
      BegunKept(Server(), Now(true));
      if responsePos == |response| {
        if responseCnt > 0 {
          responseCnt := responseCnt - 1;
          responsePos := 0;
        }
      }
    }

    /** One wake-up of the event loop. */
    method Handle(e: Event) returns (ret: int)
      requires Valid() && Settled()
      modifies this, buf, buf.buf
      ensures Valid() && (ret == 0 || ret == -1) && (ret == 0 ==> Settled())
      ensures Now(ret == 0) == AfterEvent(Server(), old(Now(true)), e)
    {
      if e.other {
        return -1;
      }
      if e.out {
        ret := SendResponse(e.write);
        if ret < 0 {
          return ret;
        }
      }
      if e.inp {
        ret := RecvRequest(e.first, e.second, e.read);
        if ret < 0 {
          return ret;
        }
      }
      return 0;
    }

    /** A whole run: the connection ends as the events say, one after the other, until one of them
        closes it.  The bytes sent are the first of one copy of the response for each 8 bytes
        received; while the connection is open, it waits for output exactly while it owes some. */
    method Serve(events: seq<Event>) returns (open: bool, handled: nat)
      requires Valid() && Settled() && received == [] && sent == []
      modifies this, buf, buf.buf
      ensures Valid() && Now(open) == AfterRun(Server(), old(Now(true)), events)
      ensures |sent| + responseCnt * |response| + (|response| - responsePos) == |response| * requests
      ensures Copies(sent, response) && requests <= |received| / REQUEST_SIZE
      ensures open ==> requests == |received| / REQUEST_SIZE && handled == |events|
      ensures open ==> (kernelOut <==> |sent| < |response| * requests)
      ensures !open ==> 0 < handled <= |events| && AfterRun(Server(), old(Now(true)), events[..handled - 1]).open
    {
      ghost var g, v := Server(), Now(true);
      open, handled := true, 0;
      while open && handled < |events|
        invariant handled <= |events| && Valid() && (open ==> Settled())
        invariant Now(open) == AfterRun(g, v, events[..handled])
        invariant !open ==> 0 < handled && AfterRun(g, v, events[..handled - 1]).open
        decreases open, |events| - handled
      {
        RunStep(g, v, events, handled);
        var ret := Handle(events[handled]);
        handled := handled + 1;
        if ret < 0 {
          open := false;
        }
      }
      if open {
        assert events[..handled] == events;
      } else {
        ClosedStays(g, v, events, handled);
      }
      OwedIsPending(g, Now(true));
    }
  }
}
