/** Tokens in a ring of actors.

    Every actor has a mailbox that its strand empties in order, one handler at a time.  Actors
    0 to n - 1 are the members; n is the receiver's address.  The main thread sets up the ring
    and starts the tokens while the members are already running. */
module ActorRing {
  import opened Numbers

  type Address = nat

  /** Messages carry their sender; `origin`, the member at which a token started, is auxiliary. */
  datatype Message =
    | InitMessage(next: Address, from: Address)
    | Token(value: nat, from: Address, origin: nat)

  /** A member has either its init handler or, afterwards, its token handler. */
  datatype Member = Uninit | Ready(next: Address, caller: Address)

  /** The main thread's loops: `i` and `next_i` of the first, `i` of the second, and the number of
      signals the last has received. */
  datatype Main = Initing(i: nat, next: nat) | Sending(k: nat) | Collecting(got: nat)

  /** `queue` is the receiver's message queue; `signals` is a log of what entered it. */
  datatype State = State(
    n: nat,
    tokenValue: nat,
    members: seq<Member>,
    boxes: seq<seq<Message>>,
    queue: seq<nat>,
    main: Main,
    signals: seq<Message>)

  predicate Shaped(s: State) {
    s.n > 0 && |s.members| == s.n && |s.boxes| == s.n + 1
  }

  // ---- the steps ----

  function Post(boxes: seq<seq<Message>>, to: Address, m: Message): (r: seq<seq<Message>>)
    requires to < |boxes|
    ensures |r| == |boxes|
  {
    boxes[to := boxes[to] + [m]]
  }

  function Take(boxes: seq<seq<Message>>, k: nat): (r: seq<seq<Message>>)
    requires k < |boxes| && boxes[k] != []
    ensures |r| == |boxes|
  {
    boxes[k := boxes[k][1..]]
  }

  predicate CanMain(s: State) {
    match s.main
    case Initing(i, _) => i <= s.n
    case Sending(k) => k <= s.n
    case Collecting(got) => got < s.n && s.queue != []
  }

  /** The next iteration of the main thread's current loop, or its end. */
  function MainStep(s: State): State
    requires Shaped(s) && CanMain(s)
  {
    match s.main
    case Initing(i, next) =>
      if i > 0 then s.(boxes := Post(s.boxes, i - 1, InitMessage(next, s.n)), main := Initing(i - 1, i - 1))
      else s.(main := Sending(0))
    case Sending(k) =>
      if k < s.n then s.(boxes := Post(s.boxes, k, Token(s.tokenValue, s.n, k)), main := Sending(k + 1))
      else s.(main := Collecting(0))
    case Collecting(got) => s.(queue := s.queue[1..], main := Collecting(got + 1))
  }

  predicate CanHandle(s: State, k: nat) {
    && k < s.n < |s.boxes| && k < |s.members| && s.boxes[k] != []
    && (s.members[k].Ready? ==> s.members[k].next <= s.n && s.members[k].caller <= s.n)
  }

  /** A member handles its first message; one for which it has no handler is dropped. */
  function Handle(s: State, k: nat): State
    requires Shaped(s) && CanHandle(s, k)
  {
    var rest := Take(s.boxes, k);
    match s.boxes[k][0]
    case InitMessage(next, from) =>
      if s.members[k].Uninit? then s.(boxes := rest, members := s.members[k := Ready(next, from)])
      else s.(boxes := rest)
    case Token(v, _, origin) =>
      if s.members[k].Uninit? then s.(boxes := rest)
      else if v > 0 then s.(boxes := Post(rest, s.members[k].next, Token(v - 1, k, origin)))
      else s.(boxes := Post(rest, s.members[k].caller, Token(v, k, origin)))
  }

  predicate CanReceive(s: State) {
    s.n < |s.boxes| && s.boxes[s.n] != []
  }

  function Receive(s: State): State
    requires CanReceive(s)
  {
    var m := s.boxes[s.n][0];
    var taken := s.(boxes := Take(s.boxes, s.n));
    if m.Token? then taken.(queue := s.queue + [m.value], signals := s.signals + [m]) else taken
  }

  ghost predicate Next(s: State, s': State) {
    Shaped(s) && (
      || (CanMain(s) && s' == MainStep(s))
      || (CanReceive(s) && s' == Receive(s))
      || (exists k :: CanHandle(s, k) && s' == Handle(s, k)))
  }

  ghost predicate Init(s: State) {
    && Shaped(s) && s.main == Initing(s.n, 0) && s.queue == [] && s.signals == []
    && (forall k :: 0 <= k < s.n ==> s.members[k] == Uninit)
    && (forall k :: 0 <= k <= s.n ==> s.boxes[k] == [])
  }

  ghost predicate IsRun(run: seq<State>) {
    && |run| > 0 && Init(run[0])
    && forall i {:trigger Next(run[i - 1], run[i])} :: 0 < i < |run| ==> Next(run[i - 1], run[i])
  }

  // ---- sums over the mailboxes ----

  function BoxSum(k: nat, box: seq<Message>, w: (nat, Message) -> nat): nat {
    if box == [] then 0 else w(k, box[0]) + BoxSum(k, box[1..], w)
  }

  function Total(boxes: seq<seq<Message>>, w: (nat, Message) -> nat): nat {
    if boxes == [] then 0 else Total(boxes[..|boxes| - 1], w) + BoxSum(|boxes| - 1, boxes[|boxes| - 1], w)
  }

  lemma {:induction false} BoxSnoc(k: nat, box: seq<Message>, m: Message, w: (nat, Message) -> nat)
    ensures BoxSum(k, box + [m], w) == BoxSum(k, box, w) + w(k, m)
  {
    if box == [] {
      assert (box + [m])[1..] == [];
    } else {
      assert (box + [m])[1..] == box[1..] + [m];
      BoxSnoc(k, box[1..], m, w);
    }
  }

  lemma {:induction false} TotalUpdate(boxes: seq<seq<Message>>, k: nat, box: seq<Message>, w: (nat, Message) -> nat)
    requires k < |boxes|
    ensures Total(boxes[k := box], w) + BoxSum(k, boxes[k], w) == Total(boxes, w) + BoxSum(k, box, w)
  {
    var l := |boxes| - 1;
    if k == l {
      assert boxes[k := box][..l] == boxes[..l];
    } else {
      assert boxes[k := box][..l] == boxes[..l][k := box];
      TotalUpdate(boxes[..l], k, box, w);
    }
  }

  lemma TotalPost(boxes: seq<seq<Message>>, to: Address, m: Message, w: (nat, Message) -> nat)
    requires to < |boxes|
    ensures Total(Post(boxes, to, m), w) == Total(boxes, w) + w(to, m)
  {
    BoxSnoc(to, boxes[to], m, w);
    TotalUpdate(boxes, to, boxes[to] + [m], w);
  }

  lemma TotalTake(boxes: seq<seq<Message>>, k: nat, w: (nat, Message) -> nat)
    requires k < |boxes| && boxes[k] != []
    ensures Total(Take(boxes, k), w) + w(k, boxes[k][0]) == Total(boxes, w)
  {
    TotalUpdate(boxes, k, boxes[k][1..], w);
  }

  lemma {:induction false} TotalEmpty(boxes: seq<seq<Message>>, w: (nat, Message) -> nat)
    requires forall k :: 0 <= k < |boxes| ==> boxes[k] == []
    ensures Total(boxes, w) == 0
  {
    if boxes != [] {
      TotalEmpty(boxes[..|boxes| - 1], w);
    }
  }

  function TokenCount(): (nat, Message) -> nat {
    (k: nat, m: Message) => if m.Token? then 1 else 0
  }

  function OriginCount(o: nat): (nat, Message) -> nat {
    (k: nat, m: Message) => if m.Token? && m.origin == o then 1 else 0
  }

  /** The steps that a message still causes in mailbox k. */
  function StepCount(n: nat): (nat, Message) -> nat {
    (k: nat, m: Message) => if m.InitMessage? then 1 else if k < n then m.value + 3 else 2
  }

  function Count(signals: seq<Message>, o: nat): nat {
    if signals == [] then 0
    else Count(signals[..|signals| - 1], o) + if OriginCount(o)(0, signals[|signals| - 1]) == 1 then 1 else 0
  }

  // ---- the invariant ----

  /** How many tokens the main thread has started. */
  function Started(s: State): nat {
    match s.main
    case Initing(_, _) => 0
    case Sending(k) => k
    case Collecting(_) => s.n
  }

  predicate MainOk(s: State)
    requires s.n > 0
  {
    match s.main
    case Initing(i, next) => i <= s.n && next == i % s.n
    case Sending(k) => k <= s.n
    case Collecting(got) => got <= s.n
  }

  /** A token has made one hop for each unit it has lost. */
  predicate TokenOk(s: State, k: nat, m: Message)
    requires s.n > 0
  {
    m.Token? && m.value <= s.tokenValue && m.origin < s.n && (m.origin + (s.tokenValue - m.value)) % s.n == k
  }

  /** The init message is the first of a member's messages; tokens are on their way round the ring. */
  ghost predicate MailOk(s: State, k: nat, j: nat)
    requires Shaped(s) && k < s.n && j < |s.boxes[k]|
  {
    var m := s.boxes[k][j];
    if m.InitMessage? then j == 0 && s.members[k].Uninit? && m == InitMessage((k + 1) % s.n, s.n)
    else !s.main.Initing? && TokenOk(s, k, m)
  }

  ghost predicate MemberOk(s: State, k: nat)
    requires Shaped(s) && k < s.n
  {
    && (s.members[k].Ready? ==> s.members[k] == Ready((k + 1) % s.n, s.n))
    && (s.main.Initing? && k < s.main.i ==> s.members[k].Uninit? && s.boxes[k] == [])
    && (s.members[k].Uninit? && !(s.main.Initing? && k < s.main.i) ==> s.boxes[k] != [] && s.boxes[k][0].InitMessage?)
    && (forall j :: 0 <= j < |s.boxes[k]| ==> MailOk(s, k, j))
  }

  /** A zero, sent by the member where its token ran out. */
  predicate SignalOk(s: State, m: Message)
    requires s.n > 0
  {
    m.Token? && m.value == 0 && m.origin < s.n && m.from == (m.origin + s.tokenValue) % s.n
  }

  ghost predicate ReceiverOk(s: State)
    requires Shaped(s)
  {
    && (forall j :: 0 <= j < |s.boxes[s.n]| ==> SignalOk(s, s.boxes[s.n][j]))
    && (forall j :: 0 <= j < |s.signals| ==> SignalOk(s, s.signals[j]))
    && |s.signals| == |s.queue| + (if s.main.Collecting? then s.main.got else 0)
    && (forall j :: 0 <= j < |s.queue| ==> s.queue[j] == 0)
  }

  /** No token is lost or doubled. */
  ghost predicate TokensOk(s: State) {
    && Total(s.boxes, TokenCount()) + |s.signals| == Started(s)
    && forall o: nat {:trigger Count(s.signals, o)} :: Total(s.boxes, OriginCount(o)) + Count(s.signals, o) == if o < Started(s) then 1 else 0
  }

  ghost predicate Inv(s: State) {
    && Shaped(s) && MainOk(s)
    && (forall k :: 0 <= k < s.n ==> MemberOk(s, k))
    && ReceiverOk(s) && TokensOk(s)
  }

  // ---- every step keeps it ----

  lemma NextHop(a: nat, n: nat)
    requires n > 0
    ensures (a + 1) % n == (a % n + 1) % n
  {
    var q, r := a / n, a % n;
    if r + 1 < n {
      DivModUnique(a + 1, q, r + 1, n);
      DivModUnique(r + 1, 0, r + 1, n);
    } else {
      DivModUnique(a + 1, q + 1, 0, n);
      DivModUnique(n, 1, 0, n);
    }
  }

  /** A member's state is kept when its messages, its handlers and the main loop's phase are. */
  lemma MemberFrame(s: State, s': State, k: nat)
    requires Shaped(s) && Shaped(s') && s'.n == s.n && s'.tokenValue == s.tokenValue && k < s.n && MemberOk(s, k)
    requires s'.members[k] == s.members[k] && s'.boxes[k] == s.boxes[k]
    requires !s.main.Initing? ==> !s'.main.Initing?
    requires (s'.main.Initing? && k < s'.main.i) <==> (s.main.Initing? && k < s.main.i)
    ensures MemberOk(s', k)
  {
    forall j | 0 <= j < |s'.boxes[k]| ensures MailOk(s', k, j) {
      assert MailOk(s, k, j);
    }
  }

  /** A member that has been sent a token it can take. */
  lemma MemberPosted(s: State, s': State, k: nat, m: Message)
    requires Shaped(s) && Shaped(s') && s'.n == s.n && s'.tokenValue == s.tokenValue && k < s.n && MemberOk(s, k)
    requires s'.members[k] == s.members[k] && s'.boxes[k] == s.boxes[k] + [m]
    requires !s.main.Initing? && !s'.main.Initing? && TokenOk(s, k, m)
    ensures MemberOk(s', k)
  {
    forall j | 0 <= j < |s'.boxes[k]| ensures MailOk(s', k, j) {
      if j < |s.boxes[k]| {
        assert MailOk(s, k, j);
      }
    }
  }

  lemma MainMembers(s: State, k: nat)
    requires Inv(s) && CanMain(s) && k < s.n
    ensures MemberOk(MainStep(s), k)
  {
    var s' := MainStep(s);
    assert MemberOk(s, k);
    if s.main.Initing? && s.main.i == k + 1 {
      NextHop(k, s.n);
      assert s'.boxes[k] == [InitMessage(s.main.next, s.n)];
      DivModUnique(k, 0, k, s.n);
    } else if s.main.Sending? && s.main.k == k {
      DivModUnique(k, 0, k, s.n);
      MemberPosted(s, s', k, Token(s.tokenValue, s.n, k));
    } else {
      MemberFrame(s, s', k);
    }
  }

  lemma MainTokens(s: State, o: nat)
    requires Inv(s) && CanMain(s)
    ensures var s' := MainStep(s);
      && Total(s'.boxes, TokenCount()) + |s'.signals| == Started(s')
      && Total(s'.boxes, OriginCount(o)) + Count(s'.signals, o) == if o < Started(s') then 1 else 0
  {
    assert Total(s.boxes, OriginCount(o)) + Count(s.signals, o) == if o < Started(s) then 1 else 0;
    if s.main.Initing? && s.main.i > 0 {
      TotalPost(s.boxes, s.main.i - 1, InitMessage(s.main.next, s.n), TokenCount());
      TotalPost(s.boxes, s.main.i - 1, InitMessage(s.main.next, s.n), OriginCount(o));
    } else if s.main.Sending? && s.main.k < s.n {
      TotalPost(s.boxes, s.main.k, Token(s.tokenValue, s.n, s.main.k), TokenCount());
      TotalPost(s.boxes, s.main.k, Token(s.tokenValue, s.n, s.main.k), OriginCount(o));
    }
  }

  lemma MainKept(s: State)
    requires Inv(s) && CanMain(s)
    ensures Inv(MainStep(s))
  {
    var s' := MainStep(s);
    forall k | 0 <= k < s'.n ensures MemberOk(s', k) {
      MainMembers(s, k);
    }
    forall o: nat ensures Total(s'.boxes, OriginCount(o)) + Count(s'.signals, o) == if o < Started(s') then 1 else 0 {
      MainTokens(s, o);
    }
    MainTokens(s, 0);
    if s.main.Initing? && s.main.i > 0 {
      DivModUnique(s.main.i - 1, 0, s.main.i - 1, s.n);
    }
  }

  /** What a token becomes, and where it goes. */
  lemma HandledToken(s: State, k: nat)
    requires Inv(s) && CanHandle(s, k) && s.boxes[k][0].Token?
    ensures s.members[k] == Ready((k + 1) % s.n, s.n) && !s.main.Initing?
    ensures var m := s.boxes[k][0];
      && TokenOk(s, k, m)
      && (m.value > 0 ==> TokenOk(s, (k + 1) % s.n, Token(m.value - 1, k, m.origin)))
      && (m.value == 0 ==> SignalOk(s, Token(0, k, m.origin)))
  {
    var m := s.boxes[k][0];
    assert MemberOk(s, k) && MailOk(s, k, 0);
    TokenMoves(s, k, m);
  }

  lemma TokenMoves(s: State, k: nat, m: Message)
    requires s.n > 0 && TokenOk(s, k, m)
    ensures m.value > 0 ==> TokenOk(s, (k + 1) % s.n, Token(m.value - 1, k, m.origin))
    ensures m.value == 0 ==> SignalOk(s, Token(0, k, m.origin))
  {
    NextHop(m.origin + (s.tokenValue - m.value), s.n);
  }

  lemma TakenMember(s: State, s': State, k: nat)
    requires Shaped(s) && Shaped(s') && s'.n == s.n && s'.tokenValue == s.tokenValue && k < s.n && MemberOk(s, k)
    requires s.boxes[k] != [] && s'.boxes[k] == s.boxes[k][1..] && s'.main == s.main
    requires if s.boxes[k][0].InitMessage? then s'.members[k] == Ready((k + 1) % s.n, s.n) else s'.members[k] == s.members[k]
    ensures MemberOk(s', k)
  {
    assert MailOk(s, k, 0);
    forall j | 0 <= j < |s'.boxes[k]| ensures MailOk(s', k, j) {
      assert MailOk(s, k, j + 1);
    }
  }

  lemma HandleMembers(s: State, k: nat, i: nat)
    requires Inv(s) && CanHandle(s, k) && i < s.n
    ensures MemberOk(Handle(s, k), i)
  {
    var s' := Handle(s, k);
    var taken := s.(boxes := Take(s.boxes, k), members := s'.members);
    assert MemberOk(s, k) && MailOk(s, k, 0) && MemberOk(s, i);
    if i == k {
      TakenMember(s, taken, k);
    } else {
      MemberFrame(s, taken, i);
    }
    if s.boxes[k][0].Token? {
      HandledToken(s, k);
      var m := s.boxes[k][0];
      if m.value > 0 && i == (k + 1) % s.n {
        MemberPosted(taken, s', i, Token(m.value - 1, k, m.origin));
      } else {
        MemberFrame(taken, s', i);
      }
    }
  }

  lemma HandleSum(s: State, k: nat, w: (nat, Message) -> nat)
    requires Inv(s) && CanHandle(s, k)
    ensures var s', m := Handle(s, k), s.boxes[k][0];
      Total(s'.boxes, w) + w(k, m) == Total(s.boxes, w) + (
        if m.InitMessage? then 0 else if m.value > 0 then w((k + 1) % s.n, Token(m.value - 1, k, m.origin)) else w(s.n, Token(0, k, m.origin)))
  {
    var m, rest := s.boxes[k][0], Take(s.boxes, k);
    assert MemberOk(s, k) && MailOk(s, k, 0);
    TotalTake(s.boxes, k, w);
    if m.Token? {
      HandledToken(s, k);
      if m.value > 0 {
        TotalPost(rest, (k + 1) % s.n, Token(m.value - 1, k, m.origin), w);
      } else {
        TotalPost(rest, s.n, Token(0, k, m.origin), w);
      }
    }
  }

  lemma HandleTokens(s: State, k: nat, o: nat)
    requires Inv(s) && CanHandle(s, k)
    ensures var s' := Handle(s, k);
      && Total(s'.boxes, TokenCount()) + |s'.signals| == Started(s')
      && Total(s'.boxes, OriginCount(o)) + Count(s'.signals, o) == if o < Started(s') then 1 else 0
  {
    assert Total(s.boxes, OriginCount(o)) + Count(s.signals, o) == if o < Started(s) then 1 else 0;
    HandleSum(s, k, TokenCount());
    HandleSum(s, k, OriginCount(o));
  }

  lemma HandleReceiver(s: State, k: nat)
    requires Inv(s) && CanHandle(s, k)
    ensures Shaped(Handle(s, k)) && ReceiverOk(Handle(s, k))
  {
    if s.boxes[k][0].Token? {
      HandledToken(s, k);
    }
  }

  lemma HandleKept(s: State, k: nat)
    requires Inv(s) && CanHandle(s, k)
    ensures Inv(Handle(s, k))
  {
    var s' := Handle(s, k);
    forall i | 0 <= i < s'.n ensures MemberOk(s', i) {
      HandleMembers(s, k, i);
    }
    HandleTokens(s, k, 0);
    forall o: nat ensures Total(s'.boxes, OriginCount(o)) + Count(s'.signals, o) == if o < Started(s') then 1 else 0 {
      HandleTokens(s, k, o);
    }
    HandleReceiver(s, k);
  }

  lemma ReceiveTokens(s: State, o: nat)
    requires Inv(s) && CanReceive(s)
    ensures var s' := Receive(s);
      && Total(s'.boxes, TokenCount()) + |s'.signals| == Started(s')
      && Total(s'.boxes, OriginCount(o)) + Count(s'.signals, o) == if o < Started(s') then 1 else 0
  {
    var s' := Receive(s);
    assert SignalOk(s, s.boxes[s.n][0]);
    assert Total(s.boxes, OriginCount(o)) + Count(s.signals, o) == if o < Started(s) then 1 else 0;
    TotalTake(s.boxes, s.n, TokenCount());
    TotalTake(s.boxes, s.n, OriginCount(o));
    assert s'.signals[..|s.signals|] == s.signals;
  }

  lemma ReceiveKept(s: State)
    requires Inv(s) && CanReceive(s)
    ensures Inv(Receive(s))
  {
    var s' := Receive(s);
    assert SignalOk(s, s.boxes[s.n][0]);
    forall k | 0 <= k < s'.n ensures MemberOk(s', k) {
      assert MemberOk(s, k);
      MemberFrame(s, s', k);
    }
    forall o: nat ensures Total(s'.boxes, OriginCount(o)) + Count(s'.signals, o) == if o < Started(s') then 1 else 0 {
      ReceiveTokens(s, o);
    }
    ReceiveTokens(s, 0);
  }

  lemma InitKept(s: State)
    requires Init(s)
    ensures Inv(s)
  {
    DivModUnique(s.n, 1, 0, s.n);
    TotalEmpty(s.boxes, TokenCount());
    forall o: nat ensures Total(s.boxes, OriginCount(o)) == 0 {
      TotalEmpty(s.boxes, OriginCount(o));
    }
  }

  // ---- every run ends, after the same number of steps ----

  /** Steps the main thread and the queued signals still cause. */
  function MainLeft(s: State): int {
    match s.main
    case Initing(i, _) => 2 * i + 2 + s.n * (s.tokenValue + 4)
    case Sending(k) => 1 + (s.n - k) * (s.tokenValue + 4)
    case Collecting(_) => 0
  }

  function Left(s: State): int {
    Total(s.boxes, StepCount(s.n)) + |s.queue| + MainLeft(s)
  }

  lemma MainLeftDrops(s: State)
    requires Inv(s) && CanMain(s)
    ensures Left(MainStep(s)) == Left(s) - 1
  {
    if s.main.Initing? && s.main.i > 0 {
      TotalPost(s.boxes, s.main.i - 1, InitMessage(s.main.next, s.n), StepCount(s.n));
    } else if s.main.Sending? && s.main.k < s.n {
      TotalPost(s.boxes, s.main.k, Token(s.tokenValue, s.n, s.main.k), StepCount(s.n));
      assert (s.n - s.main.k) * (s.tokenValue + 4) == (s.n - s.main.k - 1) * (s.tokenValue + 4) + (s.tokenValue + 4);
    } else if s.main.Sending? {
      assert (s.n - s.main.k) * (s.tokenValue + 4) == 0;
    }
  }

  lemma HandleLeftDrops(s: State, k: nat)
    requires Inv(s) && CanHandle(s, k)
    ensures Left(Handle(s, k)) == Left(s) - 1
  {
    HandleSum(s, k, StepCount(s.n));
  }

  lemma ReceiveLeftDrops(s: State)
    requires Inv(s) && CanReceive(s)
    ensures Left(Receive(s)) == Left(s) - 1
  {
    assert SignalOk(s, s.boxes[s.n][0]);
    TotalTake(s.boxes, s.n, StepCount(s.n));
  }

  lemma NextLeft(s: State, s': State)
    requires Inv(s) && Next(s, s')
    ensures Inv(s') && s'.n == s.n && s'.tokenValue == s.tokenValue && Left(s') == Left(s) - 1
  {
    if CanMain(s) && s' == MainStep(s) {
      MainKept(s);
      MainLeftDrops(s);
    } else if CanReceive(s) && s' == Receive(s) {
      ReceiveKept(s);
      ReceiveLeftDrops(s);
    } else {
      var k :| CanHandle(s, k) && s' == Handle(s, k);
      HandleKept(s, k);
      HandleLeftDrops(s, k);
    }
  }

  lemma LeftNotNegative(s: State)
    requires Inv(s)
    ensures Left(s) >= 0
  {
    if s.main.Sending? {
      assert (s.n - s.main.k) * (s.tokenValue + 4) >= 0;
    } else if s.main.Initing? {
      assert s.n * (s.tokenValue + 4) >= 0;
    }
  }

  lemma NothingLeft(s: State)
    requires Inv(s) && AtRest(s)
    ensures Left(s) == 0
  {
    TotalEmpty(s.boxes, StepCount(s.n));
  }

  lemma {:induction false} RunKept(run: seq<State>, i: nat)
    requires IsRun(run) && i < |run|
    ensures Inv(run[i]) && run[i].n == run[0].n && run[i].tokenValue == run[0].tokenValue
    ensures Left(run[i]) + i == 2 + run[0].n * (run[0].tokenValue + 6)
  {
    if i == 0 {
      InitKept(run[0]);
      TotalEmpty(run[0].boxes, StepCount(run[0].n));
      assert run[0].n * (run[0].tokenValue + 6) == run[0].n * (run[0].tokenValue + 4) + 2 * run[0].n;
    } else {
      RunKept(run, i - 1);
      assert Next(run[i - 1], run[i]);
      NextLeft(run[i - 1], run[i]);
    }
  }

  // ---- what every run guarantees ----

  /** The set-up loop makes the members a ring, and every member has its token handler before the
      first token it handles, so no token is dropped. */
  lemma NoTokenIsDropped(run: seq<State>, i: nat, k: nat)
    requires IsRun(run) && i < |run| && CanHandle(run[i], k) && run[i].boxes[k][0].Token?
    ensures Shaped(run[i]) && run[i].members[k] == Ready((k + 1) % run[i].n, run[i].n)
    ensures Total(Handle(run[i], k).boxes, TokenCount()) == Total(run[i].boxes, TokenCount())
  {
    RunKept(run, i);
    HandledToken(run[i], k);
    HandleSum(run[i], k, TokenCount());
  }

  /** In every state each token started is in exactly one mailbox or has been signalled, once. */
  lemma TokensConserved(run: seq<State>, i: nat, o: nat)
    requires IsRun(run) && i < |run|
    ensures var s := run[i];
      && Total(s.boxes, TokenCount()) + |s.signals| == Started(s) <= s.n
      && Total(s.boxes, OriginCount(o)) + Count(s.signals, o) == if o < Started(s) then 1 else 0
  {
    RunKept(run, i);
  }

  /** What the tokens on their way still have to spend. */
  function Energy(n: nat): (nat, Message) -> nat {
    (k: nat, m: Message) => if m.Token? && k < n then m.value + 1 else 0
  }

  /** Every token a member handles costs one unit of what all tokens have left. */
  lemma EnergyDrops(run: seq<State>, i: nat, k: nat)
    requires IsRun(run) && i < |run| && CanHandle(run[i], k) && run[i].boxes[k][0].Token?
    ensures Shaped(run[i])
    ensures Total(Handle(run[i], k).boxes, Energy(run[i].n)) == Total(run[i].boxes, Energy(run[i].n)) - 1
  {
    RunKept(run, i);
    HandledToken(run[i], k);
    HandleSum(run[i], k, Energy(run[i].n));
  }

  ghost predicate AtRest(s: State) {
    s.main == Collecting(s.n) && s.queue == [] && forall k :: 0 <= k < |s.boxes| ==> s.boxes[k] == []
  }

  lemma SomethingMoves(s: State) returns (s': State)
    requires Inv(s) && !AtRest(s)
    ensures Next(s, s')
  {
    if k :| 0 <= k < s.n && s.boxes[k] != [] {
      assert MemberOk(s, k);
      s' := Handle(s, k);
    } else if s.boxes[s.n] != [] {
      s' := Receive(s);
    } else {
      TotalEmpty(s.boxes, TokenCount());
      s' := MainStep(s);
    }
  }

  /** Until all is at rest some actor or the main thread can move; and every complete run, however
      the actors are scheduled, has the same number of steps. */
  lemma EveryRunEnds(run: seq<State>, i: nat)
    requires IsRun(run) && i < |run|
    ensures !AtRest(run[i]) ==> exists s' :: Next(run[i], s')
    ensures AtRest(run[i]) ==> i == 2 + run[0].n * (run[0].tokenValue + 6)
    ensures i <= 2 + run[0].n * (run[0].tokenValue + 6)
  {
    RunKept(run, i);
    LeftNotNegative(run[i]);
    if AtRest(run[i]) {
      NothingLeft(run[i]);
    } else {
      var s' := SomethingMoves(run[i]);
      assert Next(run[i], s');
    }
  }

  /** At the end the receiver has had exactly n zeros, one for each member k at which a token
      started, and that one was sent by member (k + tokenValue) mod n. */
  lemma ReceiverGetsAllZeros(run: seq<State>, i: nat)
    requires IsRun(run) && i < |run| && AtRest(run[i])
    ensures var s := run[i];
      && s.n > 0 && |s.signals| == s.n
      && (forall j :: 0 <= j < s.n ==> SignalOk(s, s.signals[j]))
      && (forall o :: 0 <= o < s.n ==> Count(s.signals, o) == 1)
  {
    var s := run[i];
    RunKept(run, i);
    TotalEmpty(s.boxes, TokenCount());
    forall o | 0 <= o < s.n ensures Count(s.signals, o) == 1 {
      TotalEmpty(s.boxes, OriginCount(o));
    }
  }
}
