/** An echo connection with back-pressure, driven by a level-triggered event loop.

    What the kernel does is a parameter of each call: any short read or write, no data yet, end
    of stream, or an error. */
module EchoConnection {
  import opened Numbers
  import opened RingBuffers
  import opened EchoRuns

  class Connection {
    const buf: RingBuffer
    const oneSegment: bool
    var epollEvent: set<EpollBit>
    /** The mask last given to epoll_ctl. */
    var kernelMask: set<EpollBit>
    /** Everything received from the peer and everything sent back. */
    ghost var received: seq<byte>
    ghost var sent: seq<byte>

    ghost predicate Valid()
      reads this, buf, buf.buf
    {
      && buf.Valid() && kernelMask == epollEvent && EPOLLOTHER !in epollEvent
      && received == sent + buf.Contents()
    }

    /** The interest mask tracks the fullness of the ring. */
    ghost predicate Balanced()
      reads this, buf, buf.buf
      requires Valid()
    {
      && (EPOLLOUT in kernelMask <==> buf.Contents() != [])
      && (EPOLLIN in kernelMask <==> |buf.Contents()| < buf.n - 1)
    }

    ghost function Offer(): (g: Ring) {
      Ring(buf.n, oneSegment)
    }

    /** The connection as events see it. */
    ghost function Now(open: bool): (v: View)
      reads this, buf, buf.buf
      requires buf.Valid()
      ensures GoodView(Offer(), v) && WriteEnd(v) == buf.p
    {
      WriteCursor(buf.f, buf.p);
      View(buf.f, buf.Contents(), received, sent, open)
    }

    constructor (size: nat, oneSegment: bool)
      requires GoodSize(size)
      ensures Valid() && Balanced() && fresh(buf) && fresh(buf.buf)
      ensures buf.n == size && this.oneSegment == oneSegment && received == [] && sent == []
    {
      this.oneSegment := oneSegment;
      buf := new RingBuffer(size);
      epollEvent, kernelMask := {EPOLLIN}, {EPOLLIN};
      received, sent := [], [];
    }

    method SetEpoll(bit: EpollBit, flag: bool)
      requires kernelMask == epollEvent
      modifies this`epollEvent, this`kernelMask
      ensures kernelMask == epollEvent
      ensures epollEvent == if flag then old(epollEvent) + {bit} else old(epollEvent) - {bit}
    {
      if bit in epollEvent {
        if flag {
          return;
        } else {
          epollEvent := epollEvent - {bit};
        }
      } else {
        if flag {
          epollEvent := epollEvent + {bit};
        } else {
          return;
        }
      }
      kernelMask := epollEvent;
    }

    /** recvmsg on the blank segments, or recv on the first of them.  The kernel writes to blank
        cells only, so the stored bytes stay as they are. */
    method Receive(r: RecvResult) returns (recvLen: int, ghost bytes: seq<byte>)
      requires buf.Valid()
      modifies buf.buf
      ensures buf.Contents() == old(buf.Contents())
      ensures bytes == Takes(Offer(), old(Now(true)), r)
      ensures recvLen == if r.Received? then |Takes(Offer(), old(Now(true)), r)| else -1
      ensures Placed(buf.buf[..], Cells(BlankSegments(buf.n, buf.f, buf.p)), bytes)
    {
      ghost var v := Now(true);
      var iov := new Iovec[2];
      var iovLen := buf.GetBlankIovec(iov);
      var segs := iov[..iovLen];
      var cells := Cells(Offered(segs, oneSegment));
      BlankCells(buf.n, buf.f, buf.p);
      OfferedCells(segs, oneSegment, buf.n);
      OfferedLengths(Offer(), v);
      if !r.Received? {
        return -1, [];
      }
      recvLen := Min(|r.bytes|, |cells|);
      bytes := r.bytes[..recvLen];
      buf.Deliver(cells, r.bytes[..recvLen]);
    }

    /** Waits for input while there is room. */
    method RearmIn() returns (ret: int)
      requires buf.Valid() && kernelMask == epollEvent
      modifies this`epollEvent, this`kernelMask
      ensures ret == 0 && kernelMask == epollEvent
      ensures EPOLLIN in epollEvent <==> |buf.Contents()| < buf.n - 1
      ensures forall bit :: bit != EPOLLIN ==> (bit in epollEvent <==> bit in old(epollEvent))
    {
      var toRead1 := buf.GetBlankSize();
      if toRead1 < 0 {
        return -1;
      } else if toRead1 == 0 {
        SetEpoll(EPOLLIN, false);
      } else {
        SetEpoll(EPOLLIN, true);
      }
      return 0;
    }

    method RecvBuf(r: RecvResult) returns (ret: int)
      requires Valid()
      modifies this`epollEvent, this`kernelMask, this`received, buf`p, buf.buf
      ensures Valid() && Now(ret >= 0) == AfterRecv(Offer(), old(Now(true)), r)
      ensures ret >= -1 && (ret > 0 <==> received != old(received))
      ensures EPOLLOUT in epollEvent <==> EPOLLOUT in old(epollEvent)
      ensures ret >= 0 ==> (EPOLLIN in epollEvent <==> |buf.Contents()| < buf.n - 1)
    {
      ghost var v := Now(true);
      var toRead := buf.GetBlankSize();
      if toRead < 0 {
        return -1;
      } else if toRead == 0 {
        SetEpoll(EPOLLIN, false);
        return 0;
      }
      ghost var part := RecvDoes(Offer(), v, r);
      var recvLen, bytes := Receive(r);
      if recvLen == 0 {
        return -1;
      } else if recvLen < 0 {
        if r.RecvWouldBlock? {
          recvLen := 0;
        } else {
          return -1;
        }
      }
      Append(bytes, recvLen);
      var armed := RearmIn();
      return if armed < 0 then -1 else recvLen;
    }

    /** add_exist of the bytes that the kernel has placed. */
    method Append(ghost bytes: seq<byte>, recvLen: nat)
      requires buf.Valid() && received == sent + buf.Contents()
      requires recvLen == |bytes| && Placed(buf.buf[..], Cells(BlankSegments(buf.n, buf.f, buf.p)), bytes)
      modifies this`received, buf`p
      ensures buf.Valid() && received == sent + buf.Contents()
      ensures received == old(received) + bytes && buf.Contents() == old(buf.Contents()) + bytes
    {
      ConcatAssociates(sent, buf.Contents(), bytes);
      buf.AddExist(recvLen, bytes);
      received := received + bytes;
    }

    /** sendmsg of the exist segments, or send of the first of them: the kernel takes a prefix of
        the stored bytes. */
    method Transmit(r: SendResult) returns (sendLen: int, ghost bytes: seq<byte>)
      requires buf.Valid()
      ensures sendLen == if r.Accepted? then |Gives(Offer(), Now(true), r)| else -1
      ensures bytes == Gives(Offer(), Now(true), r) && bytes <= buf.Contents()
    {
      ghost var v := Now(true);
      var iov := new Iovec[2];
      var iovLen := buf.GetExistIovec(iov);
      var segs := iov[..iovLen];
      var cells := Cells(Offered(segs, oneSegment));
      ExistCells(buf.n, buf.f, buf.p);
      OfferedCells(segs, oneSegment, buf.n);
      OfferedLengths(Offer(), v);
      ExistInOrder(buf.n, buf.f, buf.p);
      if !r.Accepted? {
        return -1, [];
      }
      GivesSome(Offer(), v, r);
      sendLen := Min(r.n, |cells|);
      var gathered := Gather(buf.buf, cells, sendLen);
      bytes := gathered;
    }

    /** Waits for output while there are bytes. */
    method RearmOut() returns (ret: int)
      requires buf.Valid() && kernelMask == epollEvent
      modifies this`epollEvent, this`kernelMask
      ensures ret == 0 && kernelMask == epollEvent
      ensures EPOLLOUT in epollEvent <==> buf.Contents() != []
      ensures forall bit :: bit != EPOLLOUT ==> (bit in epollEvent <==> bit in old(epollEvent))
    {
      var toSend1 := buf.GetExistSize();
      if toSend1 < 0 {
        return -1;
      } else if toSend1 == 0 {
        SetEpoll(EPOLLOUT, false);
      } else {
        SetEpoll(EPOLLOUT, true);
      }
      return 0;
    }

    method SendBuf(r: SendResult) returns (ret: int)
      requires Valid()
      modifies this`epollEvent, this`kernelMask, this`sent, buf`f
      ensures Valid() && Now(ret >= 0) == AfterSend(Offer(), old(Now(true)), r)
      ensures ret >= -1 && (ret > 0 <==> sent != old(sent))
      ensures EPOLLIN in epollEvent <==> EPOLLIN in old(epollEvent)
      ensures ret > 0 ==> |buf.Contents()| < buf.n - 1
      ensures ret >= 0 ==> (EPOLLOUT in epollEvent <==> buf.Contents() != [])
    {
      var toSend := buf.GetExistSize();
      if toSend < 0 {
        return -1;
      } else if toSend == 0 {
        SetEpoll(EPOLLOUT, false);
        return 0;
      }
      var sendLen, bytes := Transmit(r);
      if sendLen < 0 {
        if r.SendWouldBlock? {
          sendLen := 0;
        } else {
          return -1;
        }
      }
      Consume(bytes, sendLen);
      var armed := RearmOut();
      return if armed < 0 then -1 else sendLen;
    }

    /** add_blank of the bytes that the kernel has taken. */
    method Consume(ghost bytes: seq<byte>, sendLen: nat)
      requires buf.Valid() && received == sent + buf.Contents() && bytes <= buf.Contents() && sendLen == |bytes|
      modifies this`sent, buf`f
      ensures buf.Valid() && received == sent + buf.Contents() && buf.f == (old(buf.f) + sendLen) % TWO_64
      ensures sent == old(sent) + bytes && buf.Contents() == old(buf.Contents())[sendLen..]
    {
      PrefixMoves(sent, buf.Contents(), bytes);
      buf.AddBlank(sendLen);
      sent := sent + bytes;
    }

    method HandleRead(read: RecvResult, echo: SendResult) returns (ret: int)
      requires Valid() && Balanced()
      modifies this`epollEvent, this`kernelMask, this`received, this`sent, buf, buf.buf
      ensures Valid() && (ret == 0 || ret == -1) && (ret == 0 ==> Balanced())
      ensures Now(ret == 0) == AfterRead(Offer(), old(Now(true)), read, echo)
    {
      var recvLen := RecvBuf(read);
      if recvLen < 0 {
        return -1;
      } else if recvLen > 0 {
        var sendLen := SendBuf(echo);
        if sendLen < 0 {
          return -1;
        } else if sendLen > 0 {
          SetEpoll(EPOLLIN, true);
        }
      }
      return 0;
    }

    method HandleWrite(write: SendResult) returns (ret: int)
      requires Valid() && Balanced()
      modifies this`epollEvent, this`kernelMask, this`sent, buf`f
      ensures Valid() && (ret == 0 || ret == -1) && (ret == 0 ==> Balanced())
      ensures Now(ret == 0) == AfterSend(Offer(), old(Now(true)), write)
    {
      var sendLen := SendBuf(write);
      if sendLen < 0 {
        return -1;
      } else if sendLen > 0 {
        SetEpoll(EPOLLIN, true);
      }
      return 0;
    }

    /** One wake-up of the event loop. */
    method Handle(e: Event) returns (ret: int)
      requires Valid() && Balanced()
      modifies this`epollEvent, this`kernelMask, this`received, this`sent, buf, buf.buf
      ensures Valid() && (ret == 0 || ret == -1) && (ret == 0 ==> Balanced() && kernelMask != {})
      ensures Now(ret == 0) == AfterEvent(Offer(), old(Now(true)), e)
    {
      if EPOLLOTHER in e.ev {
        return -1;
      }
      if EPOLLOUT in e.ev {
        ret := HandleWrite(e.write);
        if ret < 0 {
          return ret;
        }
      }
      if EPOLLIN in e.ev {
        ret := HandleRead(e.read, e.echo);
        if ret < 0 {
          return ret;
        }
      }
      return 0;
    }

    /** A whole run: the connection ends as the events say, one after the other, until one of them
        closes it.  The bytes received are the bytes sent followed by the bytes still stored, and an
        open connection waits for what it needs. */
    method Serve(events: seq<Event>) returns (open: bool, handled: nat)
      requires Valid() && Balanced() && received == [] && sent == []
      modifies this`epollEvent, this`kernelMask, this`received, this`sent, buf, buf.buf
      ensures Valid() && Now(open) == AfterRun(Offer(), old(Now(true)), events)
      ensures received == sent + buf.Contents() && |buf.Contents()| <= buf.n - 1
      ensures open ==> handled == |events| && Balanced() && kernelMask != {}
      ensures !open ==> 0 < handled <= |events| && AfterRun(Offer(), old(Now(true)), events[..handled - 1]).open
    {
      ghost var v := Now(true);
      open, handled := true, 0;
      while open && handled < |events|
        invariant handled <= |events| && Valid() && (open ==> Balanced() && kernelMask != {})
        invariant Now(open) == AfterRun(Offer(), v, events[..handled])
        invariant !open ==> 0 < handled && AfterRun(Offer(), v, events[..handled - 1]).open
        decreases open, |events| - handled
      {
        RunStep(Offer(), v, events, handled);
        var ret := Handle(events[handled]);
        handled := handled + 1;
        if ret < 0 {
          open := false;
        }
      }
      if open {
        assert events[..handled] == events;
      } else {
        ClosedStays(Offer(), v, events, handled);
      }
    }
  }
}
