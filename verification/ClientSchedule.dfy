/**
 When the LSP client retransmits, sends heartbeats and gives up: what its counters and timers mean over whole runs of
 its event loop, whatever arrives and in whatever order.
 */
module ClientSchedule {
  import opened Messages
  import opened Backoff
  import opened ClientSide

  datatype Event =
    | Write(payload: Payload)
    | Ack(n: int)
    | CAck(n: int)
    | Data(message: Message)
    | ReadRequest
    | Take
    | Tick

  // A client that gives up stops; cumulative acknowledgements are those that keep timers and window in step.
  ghost predicate Enabled(c: ClientState, e: Event) {
    match e
    case CAck(n) => CAckCovers(c, n)
    case Take => c.readPayloads.Some?
    case Tick => !GivesUp(c) && SeqNums(c.window) <= c.backOffMap.Keys
    case _ => true
  }

  function After(c: ClientState, e: Event): ClientState
    requires Enabled(c, e)
  {
    match e
    case Write(p) => WriteArm(c, p)
    case Ack(n) => AckArm(c, n)
    case CAck(n) => CAckArm(c, n)
    case Data(m) => DataArm(c, m)
    case ReadRequest => ToRead(c)
    case Take => Taken(c)
    case Tick => TickArm(c)
  }

  ghost predicate IsRun(states: seq<ClientState>, events: seq<Event>) {
    && |states| == |events| + 1
    && states[0] == Established(states[0].params, states[0].connId, states[0].sendingSeqNum - 1)
    && forall i | 0 <= i < |events| :: Enabled(states[i], events[i]) && states[i + 1] == After(states[i], events[i])
  }

  // ---------- What one event keeps ----------

  // The arms that send queued messages, up to manageToSend
  function BeforeSending(c: ClientState, e: Event): ClientState
    requires e.Write? || e.Ack? || e.CAck?
  {
    match e
    case Write(p) => Queued(c, p)
    case Ack(n) => Acked(c, n)
    case CAck(n) => CAcked(c, n)
  }

  lemma BeforeSendingKeeps(c: ClientState, e: Event)
    requires SenderOk(c) && (e.Write? || e.Ack? || e.CAck?) && Enabled(c, e)
    ensures SenderOk(BeforeSending(c, e))
    ensures After(c, e) == SendQueued(BeforeSending(c, e))
  {
    hide ToSend, Ascending;
    match e
    case Write(p) => QueuedKeepsSender(c, p);
    case Ack(n) => AckedKeepsSender(c, n);
    case CAck(n) => CAckInStep(c, n);
  }

  lemma EventKeepsSender(c: ClientState, e: Event)
    requires SenderOk(c) && Enabled(c, e)
    ensures SenderOk(After(c, e)) && After(c, e).params == c.params
  {
    hide ToSend, Ascending, SortBySeqNum;
    if e.Write? || e.Ack? || e.CAck? {
      BeforeSendingKeeps(c, e);
      SendQueuedKeeps(BeforeSending(c, e));
      var k := SendQueuedShape(BeforeSending(c, e));
    } else if e.Tick? {
      TickKeepsSender(c);
    }
  }

  lemma {:induction false} RunKeepsSender(states: seq<ClientState>, events: seq<Event>, i: nat)
    requires IsRun(states, events) && i < |states|
    ensures SenderOk(states[i]) && states[i].params == states[0].params
  {
    hide After, Enabled, SenderOk;
    if i == 0 {
      StartOk(states[0]);
    } else {
      RunKeepsSender(states, events, i - 1);
      EventKeepsSender(states[i - 1], events[i - 1]);
    }
  }

  lemma StartOk(c: ClientState)
    requires c == Established(c.params, c.connId, c.sendingSeqNum - 1)
    ensures SenderOk(c)
  {
  }

  lemma OneMore(states: seq<ClientState>, events: seq<Event>, e: Event)
    returns (longer: seq<ClientState>, more: seq<Event>)
    requires IsRun(states, events) && Enabled(states[|events|], e)
    ensures IsRun(longer, more) && |longer| == |more| + 1 && longer[0].params == states[0].params
    ensures longer[|more|] == After(states[|events|], e)
  {
    hide After, Enabled;
    longer, more := states + [After(states[|events|], e)], events + [e];
  }

  // ---------- When a message waits ----------

  // In plain numbers: the gate is shut, by the span of the window or by its size.
  ghost predicate Full(c: ClientState) {
    || (if c.window == [] then 0 else c.window[|c.window| - 1].seqNum - c.window[0].seqNum + 1) >= c.params.windowSize
    || |c.window| >= c.params.maxUnackedMessages
  }

  lemma ShutIsFull(c: ClientState)
    ensures GateOpen(c) <==> !Full(c)
  {
  }

  ghost predicate WindowOk(c: ClientState) {
    && (c.unsentMessages != [] ==> Full(c))
    && (c.window != [] ==> |c.window| <= c.params.maxUnackedMessages)
  }

  lemma {:induction false} ToSendKeepsSize(c: ClientState)
    requires c.window != [] ==> |c.window| <= c.params.maxUnackedMessages
    ensures ToSend(c).window != [] ==> |ToSend(c).window| <= c.params.maxUnackedMessages
    decreases |c.unsentMessages|
  {
    hide SortBySeqNum;
    if c.unsentMessages != [] && GateOpen(c) {
      SortKeeps(c.window + [c.unsentMessages[0]]);
      ToSendKeepsSize(PromoteOldest(c));
    }
  }

  lemma SmallerBeforeSending(c: ClientState, e: Event)
    requires SenderOk(c) && (e.Write? || e.Ack? || e.CAck?) && Enabled(c, e)
    ensures |BeforeSending(c, e).window| <= |c.window| && BeforeSending(c, e).params == c.params
  {
    hide Ascending;
  }

  lemma SendingKeepsWindow(c: ClientState)
    requires SenderOk(c) && (c.window != [] ==> |c.window| <= c.params.maxUnackedMessages)
    ensures WindowOk(SendQueued(c))
  {
    hide ToSend, Ascending, GateOpen, Full;
    ToSendKeepsSize(c);
    var k := ToSendMovesPrefix(c);
    ShutIsFull(ToSend(c));
    SameWindow(ToSend(c), SendQueued(c));
  }

  lemma SameWindow(c: ClientState, d: ClientState)
    requires d.window == c.window && d.unsentMessages == c.unsentMessages && d.params == c.params
    ensures WindowOk(d) <==> WindowOk(c)
  {
  }

  lemma EventKeepsWindow(c: ClientState, e: Event)
    requires SenderOk(c) && Enabled(c, e) && WindowOk(c)
    ensures WindowOk(After(c, e))
  {
    hide Full, SendQueued, SenderOk, SortBySeqNum;
    if e.Write? || e.Ack? || e.CAck? {
      BeforeSendingKeeps(c, e);
      SmallerBeforeSending(c, e);
      SendingKeepsWindow(BeforeSending(c, e));
    } else {
      SameWindow(c, After(c, e));
    }
  }

  lemma {:induction false} WindowsStayOk(states: seq<ClientState>, events: seq<Event>, i: nat)
    requires IsRun(states, events) && i < |states|
    ensures WindowOk(states[i])
  {
    hide After, Enabled, SenderOk, Full;
    if i > 0 {
      WindowsStayOk(states, events, i - 1);
      RunKeepsSender(states, events, i - 1);
      EventKeepsWindow(states[i - 1], events[i - 1]);
    }
  }

  /** In every run: a message waits only when the window spans WindowSize numbers or has MaxUnackedMessages, and it
      never has more. */
  lemma WaitsOnlyWhenFull(states: seq<ClientState>, events: seq<Event>, i: nat)
    requires IsRun(states, events) && i < |states|
    ensures var p, window := states[i].params, states[i].window;
            && (states[i].unsentMessages != [] ==>
                  || (if window == [] then 0 else window[|window| - 1].seqNum - window[0].seqNum + 1) >= p.windowSize
                  || |window| >= p.maxUnackedMessages)
            && (window != [] ==> |window| <= p.maxUnackedMessages)
  {
    hide IsRun;
    WindowsStayOk(states, events, i);
  }

  // ---------- The span of the window ----------

  /** The client's gate looks at the span of the window as it is, not at what one more message makes of it. This says
      that the span stays within WindowSize all the same. */
  ghost predicate SpanKept(params: Params) {
    forall states: seq<ClientState>, events, i: nat |
      IsRun(states, events) && states[0].params == params && i < |states| ::
      WindowSpan(states[i].window) <= params.windowSize
  }

  // Never more than one message at a time in the window
  predicate OneAtATime(params: Params) {
    params.windowSize <= 1 || params.maxUnackedMessages <= 1
  }

  ghost predicate OneInWindow(c: ClientState) {
    |c.window| <= 1 && (c.window != [] ==> 1 <= c.params.windowSize)
  }

  lemma {:induction false} ToSendKeepsOne(c: ClientState)
    requires OneAtATime(c.params) && OneInWindow(c)
    ensures OneInWindow(ToSend(c)) && ToSend(c).params == c.params
    decreases |c.unsentMessages|
  {
    hide SortBySeqNum;
    if c.unsentMessages != [] && GateOpen(c) {
      assert c.window == [];
      SortKeeps(c.window + [c.unsentMessages[0]]);
      ToSendKeepsOne(PromoteOldest(c));
    }
  }

  lemma EventKeepsOne(c: ClientState, e: Event)
    requires OneAtATime(c.params) && OneInWindow(c) && Enabled(c, e)
    ensures OneInWindow(After(c, e))
  {
    hide ToSend, SortBySeqNum;
    if e.Write? || e.Ack? || e.CAck? {
      ToSendKeepsOne(BeforeSending(c, e));
    }
  }

  lemma {:induction false} RunKeepsOne(states: seq<ClientState>, events: seq<Event>, i: nat)
    requires IsRun(states, events) && i < |states| && OneAtATime(states[0].params)
    ensures OneInWindow(states[i])
  {
    hide After, Enabled, SenderOk;
    if i > 0 {
      RunKeepsOne(states, events, i - 1);
      RunKeepsSender(states, events, i - 1);
      EventKeepsOne(states[i - 1], events[i - 1]);
    }
  }

  // The state in which only message 1 is unacknowledged and k is the next number
  ghost predicate Stretched(c: ClientState, params: Params, k: int) {
    && c.params == params && c.sendingSeqNum == k
    && c.window == [Message(c.connId, 1, [])] && c.unsentMessages == []
  }

  lemma StretchedFirst(params: Params) returns (states: seq<ClientState>, events: seq<Event>)
    requires 1 <= params.windowSize && 1 <= params.maxUnackedMessages
    ensures IsRun(states, events) && states[0].params == params && Stretched(states[|events|], params, 2)
  {
    var c := Established(params, 1, 0);
    StartOk(c);
    WrittenAtOnce(c, []);
    states, events := OneMore([c], [], Write([]));
  }

  lemma StretchedWrite(c: ClientState, params: Params, k: int)
    requires Stretched(c, params, k) && SenderOk(c) && 2 <= params.windowSize && 2 <= params.maxUnackedMessages
    ensures var d := WriteArm(c, []);
            && d.window == c.window + [Message(c.connId, k, [])] && d.unsentMessages == [] && d.sendingSeqNum == k + 1
            && d.params == params && d.connId == c.connId
  {
    WrittenAtOnce(c, []);
  }

  lemma StretchedAck(c: ClientState, params: Params, k: int)
    requires c.params == params && c.sendingSeqNum == k + 1 && c.unsentMessages == [] && 1 < k
    requires c.window == [Message(c.connId, 1, [])] + [Message(c.connId, k, [])]
    ensures Stretched(AckArm(c, k), params, k + 1) && AckArm(c, k).connId == c.connId
  {
    FirstIndex(c.window, k, 1);
    assert Without(c.window, k) == [c.window[0]];
  }

  // Write the next message and acknowledge it, again and again, while message 1 stays unacknowledged.
  lemma {:induction false} StretchedRun(params: Params, k: int) returns (states: seq<ClientState>, events: seq<Event>)
    requires 2 <= k && 2 <= params.windowSize && 2 <= params.maxUnackedMessages
    ensures IsRun(states, events) && states[0].params == params && Stretched(states[|events|], params, k)
    decreases k
  {
    hide WriteArm, AckArm, SenderOk;
    if k == 2 {
      states, events := StretchedFirst(params);
    } else {
      states, events := StretchedRun(params, k - 1);
      var c := states[|events|];
      RunKeepsSender(states, events, |events|);
      StretchedWrite(c, params, k - 1);
      states, events := OneMore(states, events, Write([]));
      assert states[|events|] == WriteArm(c, []);
      var d := states[|events|];
      StretchedAck(d, params, k - 1);
      states, events := OneMore(states, events, Ack(k - 1));
      assert states[|events|] == AckArm(d, k - 1);
    }
  }

  /** Only parameters that never let two messages into the window keep the span within WindowSize; with any others a run
      stretches it, for the promotion after an acknowledgement out of order never asks how far the message lies from
      the oldest one. */
  lemma SpanKeptIff(params: Params)
    ensures SpanKept(params) <==> 0 <= params.windowSize && OneAtATime(params)
  {
    if 0 <= params.windowSize && OneAtATime(params) {
      forall states: seq<ClientState>, events, i: nat |
        IsRun(states, events) && states[0].params == params && i < |states|
        ensures WindowSpan(states[i].window) <= params.windowSize
      {
        RunKeepsOne(states, events, i);
        RunKeepsSender(states, events, i);
      }
    } else if params.windowSize < 0 {
      var c := Established(params, 1, 0);
      assert IsRun([c], []);
      assert WindowSpan([c][0].window) > params.windowSize;
    } else {
      var k := params.windowSize + 1;
      var states, events := StretchedRun(params, k);
      SpanGrows(params, k, states, events);
    }
  }

  lemma SpanGrows(params: Params, k: int, states: seq<ClientState>, events: seq<Event>)
    requires 2 <= params.windowSize < k && 2 <= params.maxUnackedMessages
    requires IsRun(states, events) && states[0].params == params && Stretched(states[|events|], params, k)
    ensures !SpanKept(params)
  {
    hide WriteArm, SenderOk;
    var c := states[|events|];
    RunKeepsSender(states, events, |events|);
    StretchedWrite(c, params, k);
    var longer, more := OneMore(states, events, Write([]));
    assert longer[|more|] == WriteArm(c, []);
    assert WindowSpan(longer[|more|].window) == k;
  }

  /** A reachable state in which a cumulative acknowledgement costs a message its timer: after a third Write, with 2
      acknowledged, the window is 1 and 3, and 2 is not in it. */
  lemma CAckCanLoseTimer(params: Params) returns (states: seq<ClientState>, events: seq<Event>)
    requires 2 <= params.windowSize && 2 <= params.maxUnackedMessages
    ensures IsRun(states, events) && states[0].params == params
    ensures var c := states[|events|];
            && c.window == [Message(c.connId, 1, [])] + [Message(c.connId, 3, [])]
            && SenderOk(c) && !SenderOk(CAckArm(c, 2))
  {
    hide WriteArm, AckArm, SenderOk, CAckArm;
    states, events := StretchedRun(params, 3);
    var c := states[|events|];
    RunKeepsSender(states, events, |events|);
    StretchedWrite(c, params, 3);
    states, events := OneMore(states, events, Write([]));
    assert states[|events|] == WriteArm(c, []);
    RunKeepsSender(states, events, |events|);
    NotCovered(states[|events|]);
    CAckKeepsSenderIff(states[|events|], 2);
  }

  lemma NotCovered(c: ClientState)
    requires c.window == [Message(c.connId, 1, [])] + [Message(c.connId, 3, [])]
    ensures !CAckCovers(c, 2)
  {
    assert c.window[0] in c.window && c.window[0].seqNum == 1;
    assert 1 in SeqNums(c.window);
    assert forall m | m in c.window :: m == c.window[0] || m == c.window[1];
  }

  // ---------- Timers ----------

  // How many epochs message n has been unacknowledged in the window
  function TimerAge(states: seq<ClientState>, events: seq<Event>, n: int, i: nat): nat
    requires i <= |events| && |states| == |events| + 1
  {
    if i == 0 || n !in states[i - 1].backOffMap then 0
    else TimerAge(states, events, n, i - 1) + if events[i - 1].Tick? then 1 else 0
  }

  // Sending starts new timers and leaves the others alone.
  lemma SendingTimers(c: ClientState, n: int)
    requires SenderOk(c) && n in SendQueued(c).backOffMap
    ensures SendQueued(c).backOffMap[n] == if n in c.backOffMap then c.backOffMap[n] else BackOff(0, 0)
  {
    hide ToSend, Ascending;
    var k := SendQueuedShape(c);
    WindowAscends(c);
    if n in SeqNums(c.unsentMessages[..k]) {
      var m :| m in c.unsentMessages[..k] && m.seqNum == n;
      assert m in c.unsentMessages;
      assert n !in SeqNums(c.window);
    }
  }

  lemma EventTimers(c: ClientState, e: Event, n: int)
    requires SenderOk(c) && Enabled(c, e) && n in After(c, e).backOffMap
    ensures After(c, e).backOffMap[n]
         == if n !in c.backOffMap then BackOff(0, 0)
            else if e.Tick? then ClientTick(c.backOffMap[n], c.params.maxBackOffInterval)
            else c.backOffMap[n]
  {
    hide ToSend, Ascending, SortBySeqNum;
    if e.Write? || e.Ack? || e.CAck? {
      BeforeSendingKeeps(c, e);
      SendingTimers(BeforeSending(c, e), n);
      BeforeSendingTimers(c, e, n);
    }
  }

  // A number whose timer the arm itself deletes is out of the window, so it does not come back.
  lemma BeforeSendingTimers(c: ClientState, e: Event, n: int)
    requires SenderOk(c) && (e.Write? || e.Ack? || e.CAck?) && Enabled(c, e)
    requires n in After(c, e).backOffMap
    ensures n in BeforeSending(c, e).backOffMap <==> n in c.backOffMap
    ensures n in c.backOffMap ==> BeforeSending(c, e).backOffMap[n] == c.backOffMap[n]
  {
    hide ToSend, Ascending, SortBySeqNum;
    var d := BeforeSending(c, e);
    BeforeSendingKeeps(c, e);
    var k := SendQueuedShape(d);
    WindowAscends(c);
    assert forall m | m in d.unsentMessages[..k] :: m in d.unsentMessages;
  }

  /** In every run each timer is where the retransmission schedule puts it after as many epochs as its message has
      been unacknowledged. */
  lemma {:induction false} TimersFollowSchedule(states: seq<ClientState>, events: seq<Event>, i: nat, n: int)
    requires IsRun(states, events) && i < |states| && n in states[i].backOffMap
    ensures states[i].backOffMap[n]
         == ClientAfter(TimerAge(states, events, n, i), states[0].params.maxBackOffInterval)
  {
    hide After, Enabled, SenderOk;
    if i > 0 {
      RunKeepsSender(states, events, i - 1);
      EventTimers(states[i - 1], events[i - 1], n);
      if n in states[i - 1].backOffMap {
        TimersFollowSchedule(states, events, i - 1, n);
      }
    }
  }

  lemma DueAtAge(t: BackOff, age: nat, max: nat)
    requires t == ClientAfter(age, max)
    ensures ClientDue(t) <==> IsClientFireTick(age + 1, max)
  {
    ClientClosedForm(age + 1, max);
  }

  lemma DueOnSchedule(states: seq<ClientState>, events: seq<Event>, i: nat, n: int)
    requires IsRun(states, events) && i < |states| && n in states[i].backOffMap
    requires 0 <= states[0].params.maxBackOffInterval
    ensures ClientDue(states[i].backOffMap[n])
            <==> IsClientFireTick(TimerAge(states, events, n, i) + 1, states[0].params.maxBackOffInterval)
  {
    hide After, Enabled, IsClientFireTick, ClientDue, ClientAfter;
    TimersFollowSchedule(states, events, i, n);
    DueAtAge(states[i].backOffMap[n], TimerAge(states, events, n, i), states[0].params.maxBackOffInterval);
  }

  /** So an epoch retransmits exactly the messages of the window whose age the closed form names. */
  lemma RetransmittedOnSchedule(states: seq<ClientState>, events: seq<Event>, i: nat, m: Message)
    requires IsRun(states, events) && i < |events| && events[i].Tick?
    requires 0 <= states[0].params.maxBackOffInterval
    ensures var c := states[i];
            && SeqNums(c.window) <= c.backOffMap.Keys
            && (m in DueMessages(c.window, c.backOffMap)
                <==> m in c.window
                     && IsClientFireTick(TimerAge(states, events, m.seqNum, i) + 1,
                                         states[0].params.maxBackOffInterval))
  {
    hide After, SenderOk, IsClientFireTick, ClientDue;
    var c := states[i];
    RunKeepsSender(states, events, i);
    DueMessagesExact(c.window, c.backOffMap);
    if m in c.window {
      assert m.seqNum in SeqNums(c.window);
      DueOnSchedule(states, events, i, m.seqNum);
    }
  }

  // ---------- Acknowledged for good ----------

  // Number n was used for a message that is no longer in the window or waiting.
  ghost predicate Gone(c: ClientState, n: int) {
    n < c.sendingSeqNum && n !in SeqNums(c.window + c.unsentMessages)
  }

  lemma BeforeSendingHolds(c: ClientState, e: Event, n: int)
    requires SenderOk(c) && (e.Write? || e.Ack? || e.CAck?) && Enabled(c, e)
    ensures c.sendingSeqNum <= BeforeSending(c, e).sendingSeqNum
    ensures var d := BeforeSending(c, e);
            n in SeqNums(d.window + d.unsentMessages) ==>
              n in SeqNums(c.window + c.unsentMessages) || n == c.sendingSeqNum
  {
    WindowAscends(c);
    WithoutHolds(c.window, if e.Ack? then e.n else 0);
    AfterHolds(c.window, if e.CAck? then e.n else 0);
  }

  lemma GoneStays(c: ClientState, e: Event, n: int)
    requires SenderOk(c) && Enabled(c, e) && Gone(c, n)
    ensures Gone(After(c, e), n)
  {
    hide ToSend, Ascending, SeqNums, SortBySeqNum;
    if e.Write? || e.Ack? || e.CAck? {
      BeforeSendingKeeps(c, e);
      BeforeSendingHolds(c, e, n);
      SendQueuedHolds(BeforeSending(c, e));
    }
  }

  predicate Acknowledges(e: Event, n: int) {
    (e.Ack? && e.n == n) || (e.CAck? && n <= e.n)
  }

  lemma AckedLeavesWindow(c: ClientState, e: Event, n: int)
    requires SenderOk(c) && Enabled(c, e) && Acknowledges(e, n) && n in c.backOffMap
    ensures n !in SeqNums(BeforeSending(c, e).window + c.unsentMessages) && n < c.sendingSeqNum
  {
    WindowAscends(c);
    if e.Ack? {
      WithoutRemoves(c.window, n);
    } else {
      CAckInStep(c, e.n);
    }
    assert forall m | m in c.window :: m in c.window + c.unsentMessages;
  }

  /** Over runs: a message once acknowledged never has a timer again and is never in the window again, so it is never
      retransmitted. */
  lemma {:induction false} AckedForGood(states: seq<ClientState>, events: seq<Event>, i: nat, j: nat, n: int)
    requires IsRun(states, events) && i < j < |states|
    requires n in states[i].backOffMap && Acknowledges(events[i], n)
    ensures Gone(states[j], n) && n !in states[j].backOffMap
    decreases j
  {
    hide After, Enabled, Ascending;
    RunKeepsSender(states, events, j - 1);
    RunKeepsSender(states, events, j);
    var c, e := states[j - 1], events[j - 1];
    if i == j - 1 {
      AckedLeavesWindow(c, e, n);
      BeforeSendingKeeps(c, e);
      SendQueuedHolds(BeforeSending(c, e));
    } else {
      AckedForGood(states, events, i, j - 1, n);
      GoneStays(c, e, n);
    }
    SeqNumsConcat(states[j].window, states[j].unsentMessages);
  }

  // ---------- Silence ----------

  // How many epochs have passed since a message last arrived from the server
  function SilentEpochs(events: seq<Event>, i: nat): nat
    requires i <= |events|
  {
    if i == 0 then 0
    else match events[i - 1]
      case Ack(_) => 0
      case CAck(_) => 0
      case Data(_) => 0
      case Tick => SilentEpochs(events, i - 1) + 1
      case _ => SilentEpochs(events, i - 1)
  }

  // What an event transmits
  function Sends(c: ClientState, e: Event): seq<Message>
    requires Enabled(c, e)
  {
    match e
    case Tick => DueMessages(c.window, c.backOffMap)
    case Write(_) => Transmitted(BeforeSending(c, e), After(c, e))
    case Ack(_) => Transmitted(BeforeSending(c, e), After(c, e))
    case CAck(_) => Transmitted(BeforeSending(c, e), After(c, e))
    case _ => []
  }

  // Whether anything was transmitted in the last epoch or since; before the first event the connection request was.
  ghost predicate SentSinceTick(states: seq<ClientState>, events: seq<Event>, i: nat)
    requires IsRun(states, events) && i <= |events|
  {
    || i == 0
    || Sends(states[i - 1], events[i - 1]) != []
    || (!events[i - 1].Tick? && SentSinceTick(states, events, i - 1))
  }

  lemma EventCounters(c: ClientState, e: Event)
    requires SenderOk(c) && Enabled(c, e)
    ensures var d := After(c, e);
            && d.idleEpochTime == (if e.Ack? || e.CAck? || e.Data? then 0
                                   else if e.Tick? then c.idleEpochTime + 1 else c.idleEpochTime)
            && (d.isMessageSent <==> Sends(c, e) != [] || (!e.Tick? && c.isMessageSent))
  {
    hide ToSend, Ascending, SortBySeqNum;
    if e.Write? || e.Ack? || e.CAck? {
      BeforeSendingKeeps(c, e);
      var k := SendQueuedShape(BeforeSending(c, e));
    }
  }

  /** The idle counter is the number of silent epochs, and a heartbeat goes out exactly when nothing was transmitted in
      the epoch before or since. */
  lemma {:induction false} CountersMeanSilence(states: seq<ClientState>, events: seq<Event>, i: nat)
    requires IsRun(states, events) && i < |states|
    ensures states[i].idleEpochTime == SilentEpochs(events, i)
    ensures states[i].isMessageSent <==> SentSinceTick(states, events, i)
  {
    hide After, Enabled, SenderOk, Sends;
    if i > 0 {
      RunKeepsSender(states, events, i - 1);
      CountersMeanSilence(states, events, i - 1);
      EventCounters(states[i - 1], events[i - 1]);
    }
  }

  /** The client gives up exactly when the server has been silent for EpochLimit epochs and everything that arrived in
      order has been taken, with nothing left in the record. */
  lemma GivesUpWhenSilent(states: seq<ClientState>, events: seq<Event>, i: nat)
    requires IsRun(states, events) && i < |states|
    ensures GivesUp(states[i])
            <==> && SilentEpochs(events, i) >= states[i].params.epochLimit
                 && states[i].receivedRecord == [] && states[i].readPayloads.None?
  {
    CountersMeanSilence(states, events, i);
  }
}
