/**
 What the LSP server (`server_impl.go`) keeps for one connection, and what each arm of its event loop does to it.
 */
module ServerSide {
  import opened Messages
  import opened Backoff
  import opened Sorting

  type Addr = string

  // messageBackoff entries
  datatype BackOffInfo = BackOffInfo(timer: ServerTimer, message: Message)

  datatype ServerConn = ServerConn(
    addr: Addr,
    serverSeq: int,                      // addrAndSeqNum
    window: seq<Message>,                // windows
    queue: seq<Message>,                 // windowOutOfOrder
    timers: map<int, BackOffInfo>,       // messageBackoff, the entries of this connection
    readCounter: int,                    // readCounters
    outOfOrder: seq<Message>,            // outOfOrderList
    dup: set<int>,                       // messageDupMap
    idle: int,                           // idleEpochElapsed
    sent: bool)                          // isMessageSent

  // The entry made when a connection request numbered isn arrives
  function Opened(addr: Addr, isn: int): ServerConn {
    ServerConn(addr, isn + 1, [], [], map[], isn + 1, [], {}, 0, false)
  }

  // ---------- The transmit gate ----------

  predicate Admits(p: Params, window: seq<Message>, n: int) {
    window == [] || (n < window[0].seqNum + p.windowSize && |window| < p.maxUnackedMessages)
  }

  // The queued messages the promotion loop of the Ack arm picks, asking the gate again after each.
  function Promotable(p: Params, window: seq<Message>, queue: seq<Message>): seq<Message>
    decreases |queue|
  {
    if queue == [] then []
    else if Admits(p, window, queue[0].seqNum) then
      [queue[0]] + Promotable(p, SortBySeqNum(window + [queue[0]]), queue[1..])
    else
      Promotable(p, window, queue[1..])
  }

  function Extended(window: seq<Message>, ms: seq<Message>): seq<Message>
    decreases |ms|
  {
    if ms == [] then window else Extended(SortBySeqNum(window + [ms[0]]), ms[1..])
  }

  function WithoutAll(queue: seq<Message>, ms: seq<Message>): seq<Message>
    decreases |ms|
  {
    if ms == [] then queue else WithoutAll(Without(queue, ms[0].seqNum), ms[1..])
  }

  function Fresh(m: Message): BackOffInfo {
    BackOffInfo(ServerTimer(0, 0, 0), m)
  }

  function Started(timers: map<int, BackOffInfo>, ms: seq<Message>): map<int, BackOffInfo>
    decreases |ms|
  {
    if ms == [] then timers else Started(timers[ms[0].seqNum := Fresh(ms[0])], ms[1..])
  }

  // ---------- The arms, for the connection they name ----------

  function Promoted(p: Params, c: ServerConn): ServerConn {
    var ms := Promotable(p, c.window, c.queue);
    c.(window := Extended(c.window, ms), queue := WithoutAll(c.queue, ms), timers := Started(c.timers, ms))
  }

  function Acked(c: ServerConn, n: int): ServerConn {
    c.(idle := 0, window := Without(c.window, n), timers := c.timers - {n})
  }

  function AckArm(p: Params, c: ServerConn, n: int): ServerConn {
    if n in c.timers then Promoted(p, Acked(c, n)) else Acked(c, n)
  }

  function AckSends(p: Params, c: ServerConn, n: int): seq<Message> {
    if n in c.timers then Promotable(p, Acked(c, n).window, c.queue) else []
  }

  /** The CAck arm: every timer of the window is dropped, the window loses the numbers up to n if it has n, and the
      promoted messages stay in the queue. */
  function CAckArm(p: Params, c: ServerConn, n: int): ServerConn {
    var ms := CAckSends(p, c, n);
    c.(idle := 0, window := Extended(After(c.window, n), ms), timers := Started(c.timers - SeqNums(c.window), ms))
  }

  function CAckSends(p: Params, c: ServerConn, n: int): seq<Message> {
    Promotable(p, After(c.window, n), c.queue)
  }

  function SendArm(p: Params, connId: int, c: ServerConn, payload: Payload): ServerConn {
    var m := Message(connId, c.serverSeq, payload);
    if Admits(p, c.window, c.serverSeq) then
      c.(serverSeq := c.serverSeq + 1, sent := true, window := SortBySeqNum(c.window + [m]),
         timers := c.timers[c.serverSeq := Fresh(m)])
    else
      c.(serverSeq := c.serverSeq + 1, queue := SortBySeqNum(c.queue + [m]))
  }

  function SendSends(p: Params, connId: int, c: ServerConn, payload: Payload): seq<Message> {
    if Admits(p, c.window, c.serverSeq) then [Message(connId, c.serverSeq, payload)] else []
  }

  // The messages findElement finds one after the other, and what it leaves behind
  function Run(list: seq<Message>, next: int): seq<Message>
    decreases |list|
  {
    if next in SeqNums(list) then [list[IndexOf(list, next)]] + Run(Without(list, next), next + 1) else []
  }

  function Rest(list: seq<Message>, next: int): seq<Message>
    decreases |list|
  {
    if next in SeqNums(list) then Rest(Without(list, next), next + 1) else list
  }

  // What the Data arm appends to the shared read list
  function Pushed(c: ServerConn, m: Message): seq<Message> {
    if m.seqNum in c.dup || m.seqNum != c.readCounter then [] else [m] + Run(c.outOfOrder, c.readCounter + 1)
  }

  function DataArm(c: ServerConn, m: Message): ServerConn {
    if m.seqNum in c.dup then
      c.(idle := 0)
    else if m.seqNum == c.readCounter then
      c.(idle := 0, dup := c.dup + {m.seqNum}, readCounter := c.readCounter + |Pushed(c, m)|,
         outOfOrder := Rest(c.outOfOrder, c.readCounter + 1))
    else
      c.(idle := 0, dup := c.dup + {m.seqNum}, outOfOrder := c.outOfOrder + [m])
  }

  // The epoch, for a connection that survives it
  function Aged(c: ServerConn): ServerConn {
    c.(idle := c.idle + 1)
  }

  function HeartbeatDone(c: ServerConn): ServerConn {
    c.(sent := false)
  }

  // An entry this old makes the retransmission loop end its connection.
  predicate Expired(p: Params, c: ServerConn) {
    exists n | n in c.timers :: c.timers[n].timer.total == p.epochLimit
  }

  function Ticked(p: Params, c: ServerConn): ServerConn {
    c.(timers := map n | n in c.timers ::
         BackOffInfo(ServerTick(c.timers[n].timer, p.maxBackOffInterval), c.timers[n].message))
  }

  function Due(c: ServerConn): set<Message> {
    set n | n in c.timers && ServerDue(c.timers[n].timer) :: c.timers[n].message
  }

  // ---------- What the edits keep, whatever the window and the queue look like ----------

  lemma {:induction false} PromotableFrom(p: Params, window: seq<Message>, queue: seq<Message>)
    ensures forall m | m in Promotable(p, window, queue) :: m in queue
    decreases |queue|
  {
    if queue != [] {
      PromotableFrom(p, SortBySeqNum(window + [queue[0]]), queue[1..]);
      PromotableFrom(p, window, queue[1..]);
    }
  }

  lemma {:induction false} ExtendedHolds(window: seq<Message>, ms: seq<Message>)
    ensures forall m :: m in Extended(window, ms) <==> m in window || m in ms
    decreases |ms|
  {
    if ms != [] {
      ExtendedHolds(SortBySeqNum(window + [ms[0]]), ms[1..]);
      SortKeeps(window + [ms[0]]);
      assert forall m | m in ms :: m == ms[0] || m in ms[1..];
    }
  }

  lemma {:induction false} ExtendedNonDescending(window: seq<Message>, ms: seq<Message>)
    requires NonDescending(window)
    ensures NonDescending(Extended(window, ms))
    decreases |ms|
  {
    if ms != [] {
      SortNonDescending(window + [ms[0]]);
      ExtendedNonDescending(SortBySeqNum(window + [ms[0]]), ms[1..]);
    }
  }

  lemma {:induction false} WithoutAllHolds(queue: seq<Message>, ms: seq<Message>)
    ensures forall m | m in WithoutAll(queue, ms) :: m in queue
    ensures forall m | m in queue :: m in WithoutAll(queue, ms) || m.seqNum in SeqNums(ms)
    decreases |ms|
  {
    if ms != [] {
      WithoutHolds(queue, ms[0].seqNum);
      WithoutAllHolds(Without(queue, ms[0].seqNum), ms[1..]);
      assert ms == [ms[0]] + ms[1..];
      SeqNumsConcat([ms[0]], ms[1..]);
      assert SeqNums([ms[0]]) == {ms[0].seqNum};
    }
  }

  lemma {:induction false} StartedHolds(timers: map<int, BackOffInfo>, ms: seq<Message>)
    ensures Started(timers, ms).Keys == timers.Keys + SeqNums(ms)
    ensures forall n | n in Started(timers, ms) ::
              if n in SeqNums(ms) then
                && Started(timers, ms)[n].timer == ServerTimer(0, 0, 0)
                && Started(timers, ms)[n].message in ms && Started(timers, ms)[n].message.seqNum == n
              else
                n in timers && Started(timers, ms)[n] == timers[n]
    decreases |ms|
  {
    if ms != [] {
      assert ms == [ms[0]] + ms[1..];
      SeqNumsConcat([ms[0]], ms[1..]);
      assert SeqNums([ms[0]]) == {ms[0].seqNum};
      StartedHolds(timers[ms[0].seqNum := Fresh(ms[0])], ms[1..]);
    }
  }

  // ---------- The transmit window ----------

  ghost predicate ProperParams(p: Params) {
    p.windowSize >= 1 && p.maxUnackedMessages >= 1
  }

  ghost predicate TimersMatch(window: seq<Message>, timers: map<int, BackOffInfo>) {
    && timers.Keys == SeqNums(window)
    && (forall n | n in timers :: timers[n].message in window && timers[n].message.seqNum == n)
  }

  // Window and queue ascend; the timers are exactly those of the window, each with its own message.
  ghost predicate SenderOk(c: ServerConn) {
    && Ascending(c.window + c.queue)
    && (forall m | m in c.window + c.queue :: m.seqNum < c.serverSeq)
    && TimersMatch(c.window, c.timers)
  }

  ghost predicate WithinLimits(p: Params, window: seq<Message>) {
    && |window| <= p.maxUnackedMessages
    && (window != [] ==> window[|window| - 1].seqNum < window[0].seqNum + p.windowSize)
  }

  // Messages wait only when the gate is closed to the first of them.
  ghost predicate GateOk(p: Params, c: ServerConn) {
    c.queue != [] ==> !Admits(p, c.window, c.queue[0].seqNum)
  }

  lemma Parts(window: seq<Message>, queue: seq<Message>)
    requires Ascending(window + queue)
    ensures Ascending(window) && Ascending(queue)
    ensures forall m, k | m in window && k in queue :: m.seqNum < k.seqNum
  {
    var all := window + queue;
    assert forall i | 0 <= i < |window| :: window[i] == all[i];
    assert forall i | 0 <= i < |queue| :: queue[i] == all[|window| + i];
  }

  // A gate closed to a number is closed to every larger one.
  lemma {:induction false} ClosedGateStaysClosed(p: Params, window: seq<Message>, queue: seq<Message>)
    requires Ascending(queue) && queue != [] && !Admits(p, window, queue[0].seqNum)
    ensures Promotable(p, window, queue) == []
  {
    if |queue| > 1 {
      assert queue[0].seqNum < queue[1].seqNum;
      ClosedGateStaysClosed(p, window, queue[1..]);
    }
  }

  lemma {:induction false} ExtendedIsConcat(window: seq<Message>, ms: seq<Message>)
    requires Ascending(window + ms)
    ensures Extended(window, ms) == window + ms
    decreases |ms|
  {
    if ms == [] {
      assert window + [] == window;
    } else {
      Parts(window, ms);
      AppendNext(window, ms[0]);
      assert (window + [ms[0]]) + ms[1..] == window + ms;
      ExtendedIsConcat(window + [ms[0]], ms[1..]);
    }
  }

  // The promotion loop, which looks at the whole queue, takes a prefix of it.
  lemma {:induction false} PromotesPrefix(p: Params, window: seq<Message>, queue: seq<Message>)
    requires Ascending(window + queue)
    ensures Promotable(p, window, queue) <= queue
    decreases |queue|
  {
    if queue != [] {
      Parts(window, queue);
      if Admits(p, window, queue[0].seqNum) {
        var w := window + [queue[0]];
        assert w + queue[1..] == window + queue;
        AppendNext(window, queue[0]);
        PromotesPrefix(p, w, queue[1..]);
      } else {
        ClosedGateStaysClosed(p, window, queue);
      }
    }
  }

  lemma ConcatAssociates(a: seq<Message>, b: seq<Message>, c: seq<Message>)
    ensures (a + b) + c == a + (b + c)
  {
  }

  // It stops only at a closed gate.
  lemma {:induction false} StopsAtClosedGate(p: Params, window: seq<Message>, queue: seq<Message>)
    requires Ascending(window + queue)
    ensures var ms := Promotable(p, window, queue);
            |ms| < |queue| ==> !Admits(p, window + ms, queue[|ms|].seqNum)
    decreases |queue|
  {
    if queue != [] {
      Parts(window, queue);
      if Admits(p, window, queue[0].seqNum) {
        var w := window + [queue[0]];
        assert w + queue[1..] == window + queue;
        AppendNext(window, queue[0]);
        StopsAtClosedGate(p, w, queue[1..]);
        ConcatAssociates(window, [queue[0]], Promotable(p, w, queue[1..]));
      } else {
        ClosedGateStaysClosed(p, window, queue);
        assert window + [] == window;
      }
    }
  }

  lemma {:induction false} WithoutPrefix(ms: seq<Message>, rest: seq<Message>)
    ensures WithoutAll(ms + rest, ms) == rest
    decreases |ms|
  {
    if ms == [] {
      assert ms + rest == rest;
    } else {
      WithoutHead(ms + rest);
      assert (ms + rest)[1..] == ms[1..] + rest;
      WithoutPrefix(ms[1..], rest);
    }
  }

  lemma WithoutHead(queue: seq<Message>)
    requires queue != []
    ensures Without(queue, queue[0].seqNum) == queue[1..]
  {
  }

  lemma {:induction false} StartedTimers(timers: map<int, BackOffInfo>, ms: seq<Message>)
    requires Ascending(ms)
    ensures Started(timers, ms).Keys == timers.Keys + SeqNums(ms)
    ensures forall m | m in ms :: Started(timers, ms)[m.seqNum] == Fresh(m)
    ensures forall n | n in timers && n !in SeqNums(ms) :: Started(timers, ms)[n] == timers[n]
    decreases |ms|
  {
    if ms != [] {
      assert ms == [ms[0]] + ms[1..];
      SeqNumsConcat([ms[0]], ms[1..]);
      StartedTimers(timers[ms[0].seqNum := Fresh(ms[0])], ms[1..]);
      assert ms[0].seqNum !in SeqNums(ms[1..]);
    }
  }

  // The window and the queue after a promotion: the first k queued messages have moved.
  lemma PromotedShape(p: Params, c: ServerConn) returns (k: nat)
    requires Ascending(c.window + c.queue)
    ensures k <= |c.queue| && Promotable(p, c.window, c.queue) == c.queue[..k]
    ensures Promoted(p, c).window == c.window + c.queue[..k]
    ensures Promoted(p, c).queue == c.queue[k..]
    ensures Promoted(p, c) == c.(window := c.window + c.queue[..k], queue := c.queue[k..],
                                 timers := Started(c.timers, c.queue[..k]))
    ensures k < |c.queue| ==> !Admits(p, c.window + c.queue[..k], c.queue[k].seqNum)
  {
    PromotesPrefix(p, c.window, c.queue);
    StopsAtClosedGate(p, c.window, c.queue);
    k := |Promotable(p, c.window, c.queue)|;
    Parts(c.window, c.queue);
    PrefixAscends(c.window, c.queue, k);
    ExtendedIsConcat(c.window, c.queue[..k]);
    assert c.queue == c.queue[..k] + c.queue[k..];
    WithoutPrefix(c.queue[..k], c.queue[k..]);
  }

  lemma PrefixAscends(window: seq<Message>, queue: seq<Message>, k: nat)
    requires Ascending(window + queue) && k <= |queue|
    ensures Ascending(window + queue[..k])
  {
    assert forall i | 0 <= i < |window| + k :: (window + queue[..k])[i] == (window + queue)[i];
  }

  lemma StartedMatch(window: seq<Message>, ms: seq<Message>, timers: map<int, BackOffInfo>)
    requires Ascending(ms) && TimersMatch(window, timers)
    ensures TimersMatch(window + ms, Started(timers, ms))
  {
    SeqNumsConcat(window, ms);
    StartedTimers(timers, ms);
    var r := Started(timers, ms);
    forall n | n in r
      ensures r[n].message in window + ms && r[n].message.seqNum == n
    {
      if n in SeqNums(ms) {
        var m :| m in ms && m.seqNum == n;
        assert r[n] == Fresh(m);
      }
    }
  }

  lemma PromotedKeepsSender(p: Params, c: ServerConn)
    requires SenderOk(c)
    ensures SenderOk(Promoted(p, c))
  {
    var k := PromotedShape(p, c);
    Parts(c.window, c.queue);
    StartedMatch(c.window, c.queue[..k], c.timers);
    ConcatAssociates(c.window, c.queue[..k], c.queue[k..]);
    assert c.queue[..k] + c.queue[k..] == c.queue;
  }

  lemma AckKeepsSender(p: Params, c: ServerConn, n: int)
    requires SenderOk(c)
    ensures SenderOk(AckArm(p, c, n))
  {
    var d := Acked(c, n);
    Parts(c.window, c.queue);
    WithoutRemoves(c.window, n);
    ShorterWindow(c.window, d.window, c.queue);
    if n in c.timers {
      PromotedKeepsSender(p, d);
    }
  }

  lemma ShorterWindow(window: seq<Message>, shorter: seq<Message>, queue: seq<Message>)
    requires Ascending(window + queue)
    requires Ascending(shorter) && forall m | m in shorter :: m in window
    ensures Ascending(shorter + queue)
  {
    Parts(window, queue);
    forall i, j | 0 <= i < |shorter| && 0 <= j < |queue|
      ensures shorter[i].seqNum < queue[j].seqNum
    {
      assert shorter[i] in shorter;
    }
  }

  // A message that the gate admits is at most one window size past the head, and the window has room for it.
  lemma {:induction false} PromotionStaysInWindow(p: Params, window: seq<Message>, queue: seq<Message>)
    requires ProperParams(p) && Ascending(window + queue)
    requires WithinLimits(p, window)
    ensures WithinLimits(p, window + Promotable(p, window, queue))
    decreases |queue|
  {
    if queue != [] {
      Parts(window, queue);
      if Admits(p, window, queue[0].seqNum) {
        var w := window + [queue[0]];
        assert w + queue[1..] == window + queue;
        AppendNext(window, queue[0]);
        PromotionStaysInWindow(p, w, queue[1..]);
        ConcatAssociates(window, [queue[0]], Promotable(p, w, queue[1..]));
      } else {
        ClosedGateStaysClosed(p, window, queue);
      }
    }
  }

  // After every acknowledgement, whatever still waits, waits because the gate is closed to it.
  lemma AckKeepsGate(p: Params, c: ServerConn, n: int)
    requires SenderOk(c) && GateOk(p, c)
    ensures GateOk(p, AckArm(p, c, n))
  {
    var d := Acked(c, n);
    Parts(c.window, c.queue);
    if n in c.timers {
      WithoutRemoves(c.window, n);
      ShorterWindow(c.window, d.window, c.queue);
      var k := PromotedShape(p, d);
    } else {
      assert d.window == c.window;
    }
  }

  // The transmit window stays within both limits.
  lemma AckKeepsLimits(p: Params, c: ServerConn, n: int)
    requires ProperParams(p) && SenderOk(c) && WithinLimits(p, c.window)
    ensures WithinLimits(p, AckArm(p, c, n).window)
  {
    var d := Acked(c, n);
    Parts(c.window, c.queue);
    AckKeepsSpan(p, c.window, n);
    if n in c.timers {
      WithoutRemoves(c.window, n);
      ShorterWindow(c.window, d.window, c.queue);
      PromotionStaysInWindow(p, d.window, d.queue);
      var k := PromotedShape(p, d);
    }
  }

  lemma AckKeepsSpan(p: Params, window: seq<Message>, n: int)
    requires Ascending(window) && WithinLimits(p, window)
    ensures WithinLimits(p, Without(window, n))
  {
  }

  // The two outcomes of a Write, spelled out
  function SentNow(c: ServerConn, m: Message): ServerConn {
    c.(serverSeq := c.serverSeq + 1, sent := true, window := c.window + [m], timers := c.timers[m.seqNum := Fresh(m)])
  }

  function Waiting(c: ServerConn, m: Message): ServerConn {
    c.(serverSeq := c.serverSeq + 1, queue := c.queue + [m])
  }

  lemma SendArmShape(p: Params, connId: int, c: ServerConn, payload: Payload)
    requires SenderOk(c)
    ensures SendArm(p, connId, c, payload)
         == if Admits(p, c.window, c.serverSeq) then SentNow(c, Message(connId, c.serverSeq, payload))
            else Waiting(c, Message(connId, c.serverSeq, payload))
  {
    var m := Message(connId, c.serverSeq, payload);
    Parts(c.window, c.queue);
    assert forall k | k in c.window || k in c.queue :: k in c.window + c.queue;
    if Admits(p, c.window, c.serverSeq) {
      AppendNext(c.window, m);
    } else {
      AppendNext(c.queue, m);
    }
  }

  lemma AdmittedMeansNoneWaits(p: Params, c: ServerConn)
    requires SenderOk(c) && GateOk(p, c) && Admits(p, c.window, c.serverSeq)
    ensures c.queue == []
  {
  }

  lemma OneMoreTimer(window: seq<Message>, m: Message, timers: map<int, BackOffInfo>)
    requires TimersMatch(window, timers)
    ensures TimersMatch(window + [m], timers[m.seqNum := Fresh(m)])
  {
  }

  lemma SentNowKeeps(p: Params, c: ServerConn, m: Message)
    requires SenderOk(c) && GateOk(p, c)
    requires m.seqNum == c.serverSeq && Admits(p, c.window, c.serverSeq)
    ensures SenderOk(SentNow(c, m)) && GateOk(p, SentNow(c, m)) && c.queue == []
    ensures ProperParams(p) && WithinLimits(p, c.window) ==> WithinLimits(p, SentNow(c, m).window)
  {
    AdmittedMeansNoneWaits(p, c);
    var w := c.window + [m];
    assert c.window + c.queue == c.window && w + c.queue == w;
    AppendNext(c.window, m);
    OneMoreTimer(c.window, m, c.timers);
  }

  lemma WaitingKeeps(p: Params, c: ServerConn, m: Message)
    requires SenderOk(c) && GateOk(p, c)
    requires m.seqNum == c.serverSeq && !Admits(p, c.window, c.serverSeq)
    ensures SenderOk(Waiting(c, m)) && GateOk(p, Waiting(c, m))
  {
    var d := Waiting(c, m);
    AppendNext(c.window + c.queue, m);
    assert d.window + d.queue == (c.window + c.queue) + [m];
    assert c.queue != [] ==> d.queue[0] == c.queue[0];
  }

  lemma SendKeepsSender(p: Params, connId: int, c: ServerConn, payload: Payload)
    requires SenderOk(c) && GateOk(p, c)
    ensures SenderOk(SendArm(p, connId, c, payload)) && GateOk(p, SendArm(p, connId, c, payload))
    ensures ProperParams(p) && WithinLimits(p, c.window) ==> WithinLimits(p, SendArm(p, connId, c, payload).window)
  {
    var m := Message(connId, c.serverSeq, payload);
    SendArmShape(p, connId, c, payload);
    if Admits(p, c.window, c.serverSeq) {
      SentNowKeeps(p, c, m);
    } else {
      WaitingKeeps(p, c, m);
    }
  }

  /** A Write, which never inspects the queue, cannot overtake a queued message: the new message always ends up
      behind everything that is in the window or waiting. */
  lemma SendKeepsOrder(p: Params, connId: int, c: ServerConn, payload: Payload)
    requires SenderOk(c) && GateOk(p, c)
    ensures var d := SendArm(p, connId, c, payload);
            && d.window + d.queue == c.window + c.queue + [Message(connId, c.serverSeq, payload)]
            && (c.queue != [] ==> d.window == c.window)
  {
    var m := Message(connId, c.serverSeq, payload);
    SendArmShape(p, connId, c, payload);
    if Admits(p, c.window, c.serverSeq) {
      AdmittedMeansNoneWaits(p, c);
      assert (c.window + [m]) + [] == c.window + [] + [m];
    } else {
      assert c.window + (c.queue + [m]) == c.window + c.queue + [m];
    }
  }

  // ---------- Cumulative acknowledgements ----------

  // A cumulative acknowledgement after which timers, window and queue are still in step
  predicate CAckInStep(c: ServerConn, n: int) {
    c.queue == [] && (c.window == [] || n == c.window[|c.window| - 1].seqNum)
  }

  /** It keeps timers, window and queue in step exactly when it acknowledges the last message in the window and
      nothing waits. */
  lemma CAckKeepsSenderIff(p: Params, c: ServerConn, n: int)
    requires SenderOk(c) && GateOk(p, c)
    ensures SenderOk(CAckArm(p, c, n)) <==> CAckInStep(c, n)
  {
    Parts(c.window, c.queue);
    CAckLeavesWindow(c.window, n);
    if c.queue != [] {
      CAckRepeatsMessages(p, c, n);
    } else if After(c.window, n) == [] {
      CAckOfAll(p, c, n);
    } else {
      CAckDropsTimers(p, c, n);
    }
  }

  // In step, everything leaves the window.
  lemma CAckInStepEmpties(p: Params, c: ServerConn, n: int)
    requires SenderOk(c) && CAckInStep(c, n)
    ensures CAckArm(p, c, n) == c.(idle := 0, window := [], timers := map[])
  {
    Parts(c.window, c.queue);
    CAckLeavesWindow(c.window, n);
    assert Promotable(p, [], []) == [];
  }

  lemma CAckOfAll(p: Params, c: ServerConn, n: int)
    requires TimersMatch(c.window, c.timers) && c.queue == [] && After(c.window, n) == []
    ensures SenderOk(CAckArm(p, c, n))
  {
  }

  // With an empty queue nothing is promoted, and whatever is still in the window has lost its timer.
  lemma CAckDropsTimers(p: Params, c: ServerConn, n: int)
    requires TimersMatch(c.window, c.timers)
    requires Promotable(p, After(c.window, n), c.queue) == [] && After(c.window, n) != []
    ensures !SenderOk(CAckArm(p, c, n))
  {
    var d := CAckArm(p, c, n);
    assert d.window == After(c.window, n) && d.timers == map[];
    assert d.window[0].seqNum in SeqNums(d.window);
  }

  // With messages waiting, either the window keeps a message without its timer, or it empties, and then the first
  // message waiting is both promoted and left in the queue.
  lemma CAckRepeatsMessages(p: Params, c: ServerConn, n: int)
    requires SenderOk(c) && c.queue != []
    ensures !SenderOk(CAckArm(p, c, n))
  {
    var window := After(c.window, n);
    Parts(c.window, c.queue);
    AfterRemoves(c.window, n);
    ShorterWindow(c.window, window, c.queue);
    PromotesPrefix(p, window, c.queue);
    var ms := Promotable(p, window, c.queue);
    if ms == [] {
      assert window != [];
      CAckDropsTimers(p, c, n);
    } else {
      CAckPromotesTwice(p, c, n);
    }
  }

  lemma CAckPromotesTwice(p: Params, c: ServerConn, n: int)
    requires Ascending(After(c.window, n) + c.queue)
    requires Promotable(p, After(c.window, n), c.queue) != []
    ensures !SenderOk(CAckArm(p, c, n))
  {
    var window := After(c.window, n);
    var ms := Promotable(p, window, c.queue);
    PromotesPrefix(p, window, c.queue);
    PrefixAscends(window, c.queue, |ms|);
    assert ms == c.queue[..|ms|];
    ExtendedIsConcat(window, ms);
    TwiceIsNotAscending(window, ms, c.queue);
  }

  lemma TwiceIsNotAscending(window: seq<Message>, ms: seq<Message>, queue: seq<Message>)
    requires ms != [] && ms <= queue
    ensures !Ascending((window + ms) + queue)
  {
    var all := (window + ms) + queue;
    assert all[|window|] == ms[0] == queue[0] == all[|window| + |ms|];
  }

  lemma CAckLeavesWindow(window: seq<Message>, n: int)
    requires Ascending(window)
    ensures After(window, n) == [] <==> window == [] || n == window[|window| - 1].seqNum
  {
  }

  lemma TickKeepsSender(p: Params, c: ServerConn)
    requires SenderOk(c)
    ensures SenderOk(Ticked(p, c))
    ensures Due(c) <= Elements(c.window)
  {
  }

  // ---------- The reorder buffer ----------

  // The list holds distinct numbers, none of them the one waited for or an earlier one.
  ghost predicate Ahead(list: seq<Message>, next: int) {
    DistinctSeqNums(list) && forall m | m in list :: m.seqNum > next
  }

  /** The findElement loop takes out the whole contiguous run from `next` and nothing else: what is left starts
      beyond the first number missing. */
  lemma {:induction false} DrainTakesRun(list: seq<Message>, next: int)
    requires DistinctSeqNums(list) && forall m | m in list :: m.seqNum >= next
    ensures forall i | 0 <= i < |Run(list, next)| :: Run(list, next)[i] in list && Run(list, next)[i].seqNum == next + i
    ensures Ahead(Rest(list, next), next + |Run(list, next)|)
    ensures forall m :: m in Rest(list, next) <==> m in list && m.seqNum >= next + |Run(list, next)|
    decreases |list|
  {
    if next in SeqNums(list) {
      WithoutRemoves(list, next);
      var less := Without(list, next);
      DrainTakesRun(less, next + 1);
      var run, tail := Run(list, next), Run(less, next + 1);
      assert Rest(list, next) == Rest(less, next + 1);
      forall i | 0 <= i < |run|
        ensures run[i] in list && run[i].seqNum == next + i
      {
        assert run[i] == if i == 0 then list[IndexOf(list, next)] else tail[i - 1];
      }
    } else {
      assert forall m | m in list :: m.seqNum != next;
    }
  }
}
