/**
 The LSP client's event loop (`client_impl.go`) on an established connection. `ClientState` and the functions
 on it are the specification, one for each arm of the `select`; class `Client` performs the arms in place.
 */
module ClientSide {
  import opened Messages
  import opened Backoff
  import opened Sorting

  datatype ClientState = ClientState(
    params: Params,
    connId: int,
    sendingSeqNum: int,
    unsentMessages: seq<Message>,
    window: seq<Message>,
    backOffMap: map<int, BackOff>,
    receiveSeqNum: int,
    receivedRecord: seq<Message>,
    readPayloads: Option<Payload>,    // the capacity-1 channel that Read takes from
    idleEpochTime: int,
    isMessageSent: bool)

  // The state once the acknowledgement of the connection request has been handled: `DialedIsEstablished` derives it.
  function Established(params: Params, connId: int, isn: int): ClientState {
    ClientState(params, connId, isn + 1, [], [], map[], isn + 1, [], None, 0, true)
  }

  // ---------- manageToSend ----------

  // SlidingWindow.GetWindowSize
  function WindowSpan(window: seq<Message>): int {
    if window == [] then 0 else window[|window| - 1].seqNum - window[0].seqNum + 1
  }

  predicate GateOpen(c: ClientState) {
    WindowSpan(c.window) < c.params.windowSize && |c.window| < c.params.maxUnackedMessages
  }

  function PromoteOldest(c: ClientState): ClientState
    requires c.unsentMessages != []
  {
    var m := c.unsentMessages[0];
    c.(unsentMessages := c.unsentMessages[1..],
       window := SortBySeqNum(c.window + [m]),
       backOffMap := c.backOffMap[m.seqNum := BackOff(0, 0)])
  }

  function ToSend(c: ClientState): (r: ClientState)
    ensures |r.unsentMessages| <= |c.unsentMessages|
    decreases |c.unsentMessages|
  {
    if c.unsentMessages == [] || !GateOpen(c) then c else ToSend(PromoteOldest(c))
  }

  // What manageToSend transmits on the way from c to r: the part of the queue that left it.
  function Transmitted(c: ClientState, r: ClientState): seq<Message>
    requires |r.unsentMessages| <= |c.unsentMessages|
  {
    c.unsentMessages[..|c.unsentMessages| - |r.unsentMessages|]
  }

  // manageToSend together with the flag its callers set
  function SendQueued(c: ClientState): (r: ClientState)
    ensures |r.unsentMessages| <= |c.unsentMessages|
  {
    var r := ToSend(c);
    r.(isMessageSent := c.isMessageSent || |r.unsentMessages| < |c.unsentMessages|)
  }

  // ---------- The arms ----------

  function Queued(c: ClientState, p: Payload): ClientState {
    c.(sendingSeqNum := c.sendingSeqNum + 1,
       unsentMessages := c.unsentMessages + [Message(c.connId, c.sendingSeqNum, p)])
  }

  function WriteArm(c: ClientState, p: Payload): ClientState {
    SendQueued(Queued(c, p))
  }

  function Acked(c: ClientState, n: int): ClientState {
    c.(idleEpochTime := 0, window := Without(c.window, n), backOffMap := c.backOffMap - {n})
  }

  function AckArm(c: ClientState, n: int): ClientState {
    SendQueued(Acked(c, n))
  }

  function CAcked(c: ClientState, n: int): ClientState {
    c.(idleEpochTime := 0, window := After(c.window, n),
       backOffMap := map k | k in c.backOffMap && k > n :: c.backOffMap[k])
  }

  function CAckArm(c: ClientState, n: int): ClientState {
    SendQueued(CAcked(c, n))
  }

  // clientCloseCheck, which does not ask for the window
  predicate CloseReady(c: ClientState) {
    c.unsentMessages == [] && c.receivedRecord == [] && c.readPayloads.None?
  }

  // manageReceived
  function ToRead(c: ClientState): ClientState {
    if c.readPayloads.Some? then
      c
    else
      var sorted := SortBySeqNum(c.receivedRecord);
      if sorted != [] && sorted[0].seqNum == c.receiveSeqNum then
        c.(readPayloads := Some(sorted[0].payload), receivedRecord := sorted[1..], receiveSeqNum := c.receiveSeqNum + 1)
      else
        c.(receivedRecord := sorted)
  }

  function Recorded(c: ClientState, m: Message): ClientState {
    c.(idleEpochTime := 0,
       receivedRecord := if m.seqNum >= c.receiveSeqNum && m.seqNum !in SeqNums(c.receivedRecord)
                         then c.receivedRecord + [m] else c.receivedRecord)
  }

  // The message is acknowledged in every case.
  function DataArm(c: ClientState, m: Message): ClientState {
    ToRead(Recorded(c, m))
  }

  // Read takes the payload out of the channel.
  function Taken(c: ClientState): ClientState {
    c.(readPayloads := None)
  }

  // The epoch at which the client closes its socket and stops
  predicate GivesUp(c: ClientState) {
    c.idleEpochTime >= c.params.epochLimit && c.receivedRecord == [] && c.readPayloads.None?
  }

  // The messages whose timer fires in this epoch, in window order
  function DueMessages(window: seq<Message>, timers: map<int, BackOff>): seq<Message>
    requires SeqNums(window) <= timers.Keys
  {
    if window == [] then []
    else
      var front, last := window[..|window| - 1], window[|window| - 1];
      DueMessages(front, timers) + if ClientDue(timers[last.seqNum]) then [last] else []
  }

  function TickTimers(window: seq<Message>, timers: map<int, BackOff>, max: int): map<int, BackOff> {
    map n | n in timers :: if n in SeqNums(window) then ClientTick(timers[n], max) else timers[n]
  }

  function TickArm(c: ClientState): ClientState
    requires SeqNums(c.window) <= c.backOffMap.Keys
  {
    if GivesUp(c) then c.(isMessageSent := false)
    else c.(idleEpochTime := c.idleEpochTime + 1,
            isMessageSent := DueMessages(c.window, c.backOffMap) != [],
            backOffMap := TickTimers(c.window, c.backOffMap, c.params.maxBackOffInterval))
  }

  lemma {:induction false} DueMessagesExact(window: seq<Message>, timers: map<int, BackOff>)
    requires SeqNums(window) <= timers.Keys
    ensures forall m :: m in DueMessages(window, timers) <==> m in window && ClientDue(timers[m.seqNum])
  {
    if window != [] {
      DueMessagesExact(window[..|window| - 1], timers);
      assert window == window[..|window| - 1] + [window[|window| - 1]];
    }
  }

  // ---------- Before the connection is established ----------

  // The request is transmitted and put into the window like a message.
  function Dialing(params: Params, isn: int): ClientState {
    ClientState(params, -1, isn + 1, [], [Message(0, isn, [])], map[isn := BackOff(0, 0)], isn + 1, [], None, 0, true)
  }

  function DialTimer(t: BackOff): BackOff {
    if ClientDue(t) then BackOff(0, 1) else t.(epochElapsed := t.epochElapsed + 1)
  }

  // An epoch with only the request in the window: after each transmission its interval goes back to 0.
  function DialTick(c: ClientState, isn: int): ClientState
    requires isn in c.backOffMap
  {
    if GivesUp(c) then c.(isMessageSent := false)
    else c.(idleEpochTime := c.idleEpochTime + 1,
            isMessageSent := ClientDue(c.backOffMap[isn]),
            backOffMap := c.backOffMap[isn := DialTimer(c.backOffMap[isn])])
  }

  // The state after k epochs without an answer
  function Dialed(params: Params, isn: int, k: nat): (c: ClientState)
    ensures isn in c.backOffMap
  {
    if k == 0 then Dialing(params, isn) else DialTick(Dialed(params, isn, k - 1), isn)
  }

  // The first acknowledgement that arrives brings the id of the connection.
  function Named(c: ClientState, id: int): ClientState {
    if c.connId == -1 then c.(connId := id) else c
  }

  lemma {:induction false} DialedState(params: Params, isn: int, k: nat)
    requires k == 0 || k <= params.epochLimit
    ensures Dialed(params, isn, k)
         == Dialing(params, isn).(idleEpochTime := k, backOffMap := map[isn := BackOff(0, if k == 0 then 0 else 1)])
  {
    if k > 0 {
      DialedState(params, isn, k - 1);
    }
  }

  /** The request goes out again in every epoch, so the client never sends a heartbeat before it is connected; and
      however long the answer took, the connection starts in the same state. */
  lemma DialedIsEstablished(params: Params, isn: int, k: nat, id: int)
    requires k == 0 || k <= params.epochLimit
    ensures Dialed(params, isn, k).isMessageSent && ClientDue(Dialed(params, isn, k).backOffMap[isn])
    ensures AckArm(Named(Dialed(params, isn, k), id), isn) == Established(params, id, isn)
  {
    var c := Named(Dialed(params, isn, k), id);
    DialedState(params, isn, k);
    FirstIndex(c.window, isn, 0);
    assert Without(c.window, isn) == [];
    assert c.backOffMap - {isn} == map[];
  }

  // ---------- What every arm keeps ----------

  // Window and queue ascend, and the timers are exactly those of the window.
  ghost predicate SenderOk(c: ClientState) {
    && Ascending(c.window + c.unsentMessages)
    && (forall m | m in c.window + c.unsentMessages :: m.seqNum < c.sendingSeqNum)
    && c.backOffMap.Keys == SeqNums(c.window)
  }

  ghost predicate ReceiverOk(c: ClientState) {
    && DistinctSeqNums(c.receivedRecord)
    && forall m | m in c.receivedRecord :: c.receiveSeqNum <= m.seqNum
  }

  // A timer is started for each of the messages.
  function Started(timers: map<int, BackOff>, ms: seq<Message>): (r: map<int, BackOff>)
    ensures r.Keys == timers.Keys + SeqNums(ms)
    ensures forall n | n in r :: r[n] == if n in SeqNums(ms) then BackOff(0, 0) else timers[n]
    decreases |ms|
  {
    if ms == [] then timers
    else
      assert ms == [ms[0]] + ms[1..];
      SeqNumsConcat([ms[0]], ms[1..]);
      Started(timers[ms[0].seqNum := BackOff(0, 0)], ms[1..])
  }

  // The k oldest queued messages have moved to the end of the window.
  function Moved(c: ClientState, k: nat): ClientState
    requires k <= |c.unsentMessages|
  {
    c.(unsentMessages := c.unsentMessages[k..],
       window := c.window + c.unsentMessages[..k],
       backOffMap := Started(c.backOffMap, c.unsentMessages[..k]))
  }

  lemma PromoteOldestMoves(c: ClientState)
    requires c.unsentMessages != [] && Ascending(c.window + c.unsentMessages)
    ensures PromoteOldest(c).window == c.window + [c.unsentMessages[0]]
    ensures PromoteOldest(c).window + PromoteOldest(c).unsentMessages == c.window + c.unsentMessages
  {
    hide Ascending, SortBySeqNum;
    WindowAscends(c);
    assert c.unsentMessages[0] in c.unsentMessages;
    AppendNext(c.window, c.unsentMessages[0]);
    HeadMoves(c.window, c.unsentMessages);
  }

  lemma MovedTwice(c: ClientState, k: nat)
    requires c.unsentMessages != [] && Ascending(c.window + c.unsentMessages)
    requires k <= |c.unsentMessages| - 1
    ensures Moved(PromoteOldest(c), k) == Moved(c, k + 1)
  {
    var d, q := PromoteOldest(c), c.unsentMessages;
    PromoteOldestMoves(c);
    assert q[..k + 1][1..] == d.unsentMessages[..k];
    assert [q[0]] + d.unsentMessages[..k] == q[..k + 1];
    assert d.window + d.unsentMessages[..k] == c.window + q[..k + 1];
  }

  lemma MovedNothing(c: ClientState)
    ensures Moved(c, 0) == c
  {
  }

  // manageToSend moves a prefix of the queue to the end of the window, touches nothing else, and stops only at
  // an empty queue or a closed gate.
  lemma {:induction false} ToSendMovesPrefix(c: ClientState) returns (k: nat)
    requires Ascending(c.window + c.unsentMessages)
    ensures k <= |c.unsentMessages| && ToSend(c) == Moved(c, k)
    ensures ToSend(c).unsentMessages == [] || !GateOpen(ToSend(c))
    decreases |c.unsentMessages|
  {
    hide Ascending, GateOpen, PromoteOldest, Started;
    if c.unsentMessages != [] && GateOpen(c) {
      var d := PromoteOldest(c);
      PromoteOldestMoves(c);
      OneFewerUnsent(c);
      k := ToSendMovesPrefix(d);
      MovedTwice(c, k);
      k := k + 1;
    } else {
      MovedNothing(c);
      k := 0;
    }
  }

  lemma OneFewerUnsent(c: ClientState)
    requires c.unsentMessages != []
    ensures |PromoteOldest(c).unsentMessages| == |c.unsentMessages| - 1
  {
  }

  lemma SendQueuedShape(c: ClientState) returns (k: nat)
    requires Ascending(c.window + c.unsentMessages)
    ensures k <= |c.unsentMessages| && SendQueued(c) == Moved(c, k).(isMessageSent := c.isMessageSent || k > 0)
    ensures Transmitted(c, SendQueued(c)) == c.unsentMessages[..k]
  {
    hide ToSend, Ascending, Started;
    k := ToSendMovesPrefix(c);
  }

  lemma SendQueuedKeeps(c: ClientState)
    requires SenderOk(c)
    ensures SenderOk(SendQueued(c))
  {
    hide ToSend;
    var k := ToSendMovesPrefix(c);
    assert ToSend(c).window + ToSend(c).unsentMessages == c.window + c.unsentMessages;
    SeqNumsConcat(c.window, c.unsentMessages[..k]);
  }

  // A Write with nothing waiting and the gate open transmits at once.
  lemma WrittenAtOnce(c: ClientState, p: Payload)
    requires SenderOk(c) && c.unsentMessages == [] && GateOpen(c)
    ensures var m, d := Message(c.connId, c.sendingSeqNum, p), WriteArm(c, p);
            && d.window == c.window + [m] && d.unsentMessages == [] && d.sendingSeqNum == c.sendingSeqNum + 1
            && d.params == c.params && d.connId == c.connId
            && d.receivedRecord == c.receivedRecord && d.readPayloads == c.readPayloads
  {
    hide SenderOk, Ascending, GateOpen;
    QueuedKeepsSender(c, p);
    PromoteOldestMoves(Queued(c, p));
    assert ToSend(PromoteOldest(Queued(c, p))) == PromoteOldest(Queued(c, p));
    GateLooksAtWindow(c, Queued(c, p));
  }

  lemma GateLooksAtWindow(c: ClientState, d: ClientState)
    requires d.window == c.window && d.params == c.params
    ensures GateOpen(d) <==> GateOpen(c)
  {
  }

  // The messages in the window or waiting after an arm were there before.
  lemma SendQueuedHolds(c: ClientState)
    requires Ascending(c.window + c.unsentMessages)
    ensures SendQueued(c).window + SendQueued(c).unsentMessages == c.window + c.unsentMessages
    ensures SendQueued(c).sendingSeqNum == c.sendingSeqNum && SendQueued(c).params == c.params
  {
    hide ToSend, Ascending, Started;
    var k := SendQueuedShape(c);
  }

  lemma QueuedKeepsSender(c: ClientState, p: Payload)
    requires SenderOk(c)
    ensures SenderOk(Queued(c, p))
  {
    var q := Queued(c, p);
    var m := Message(c.connId, c.sendingSeqNum, p);
    assert q.window + q.unsentMessages == (c.window + c.unsentMessages) + [m];
    AppendNext(c.window + c.unsentMessages, m);
  }

  lemma WriteKeepsSender(c: ClientState, p: Payload)
    requires SenderOk(c)
    ensures SenderOk(WriteArm(c, p))
  {
    QueuedKeepsSender(c, p);
    SendQueuedKeeps(Queued(c, p));
  }

  lemma AckedKeepsSender(c: ClientState, n: int)
    requires SenderOk(c)
    ensures SenderOk(Acked(c, n))
  {
    WindowAscends(c);
    WithoutRemoves(c.window, n);
    ShorterWindow(c, Acked(c, n));
  }

  lemma AckKeepsSender(c: ClientState, n: int)
    requires SenderOk(c)
    ensures SenderOk(AckArm(c, n))
  {
    AckedKeepsSender(c, n);
    SendQueuedKeeps(Acked(c, n));
  }

  lemma WindowAscends(c: ClientState)
    requires Ascending(c.window + c.unsentMessages)
    ensures Ascending(c.window) && Ascending(c.unsentMessages)
    ensures forall m, k | m in c.window && k in c.unsentMessages :: m.seqNum < k.seqNum
  {
    var all := c.window + c.unsentMessages;
    assert forall i | 0 <= i < |c.window| :: c.window[i] == all[i];
    assert forall i | 0 <= i < |c.unsentMessages| :: c.unsentMessages[i] == all[|c.window| + i];
  }

  lemma ShorterWindow(c: ClientState, d: ClientState)
    requires Ascending(c.window + c.unsentMessages)
    requires d.unsentMessages == c.unsentMessages && Ascending(d.window) && forall m | m in d.window :: m in c.window
    ensures Ascending(d.window + d.unsentMessages)
  {
    WindowAscends(c);
    forall i, j | 0 <= i < |d.window| && 0 <= j < |d.unsentMessages|
      ensures d.window[i].seqNum < d.unsentMessages[j].seqNum
    {
      assert d.window[i] in d.window;
    }
  }

  // A cumulative acknowledgement whose number is in the window or below all of it
  ghost predicate CAckCovers(c: ClientState, n: int) {
    n in SeqNums(c.window) || forall k | k in SeqNums(c.window) :: n < k
  }

  /** It keeps timers and window in step exactly then: `RemoveBeforeSeqNum` gives up on a number it does not find, while
      the timers up to that number are deleted all the same, and the next epoch would look up a timer that is gone. */
  lemma CAckKeepsSenderIff(c: ClientState, n: int)
    requires SenderOk(c)
    ensures SenderOk(CAckArm(c, n)) <==> CAckCovers(c, n)
  {
    if CAckCovers(c, n) {
      CAckInStep(c, n);
    } else {
      var m :| m in c.window && m.seqNum <= n;
      CAckLosesTimer(c, n, m);
    }
  }

  lemma CAckInStep(c: ClientState, n: int)
    requires SenderOk(c) && CAckCovers(c, n)
    ensures SenderOk(CAcked(c, n)) && SenderOk(CAckArm(c, n))
    ensures SeqNums(CAcked(c, n).window) == set k | k in SeqNums(c.window) && k > n
  {
    WindowAscends(c);
    AfterRemoves(c.window, n);
    ShorterWindow(c, CAcked(c, n));
    SendQueuedKeeps(CAcked(c, n));
  }

  lemma CAckLosesTimer(c: ClientState, n: int, m: Message)
    requires SenderOk(c)
    requires n !in SeqNums(c.window) && m in c.window && m.seqNum <= n
    ensures !SenderOk(CAckArm(c, n))
  {
    var d := CAcked(c, n);
    var k := ToSendMovesPrefix(d);
    WindowAscends(c);
    assert m.seqNum !in SeqNums(d.unsentMessages);
    MovedLeavesOut(d, k, m);
  }

  lemma MovedLeavesOut(d: ClientState, k: nat, m: Message)
    requires k <= |d.unsentMessages| && m in d.window
    requires m.seqNum !in d.backOffMap && m.seqNum !in SeqNums(d.unsentMessages)
    ensures m in Moved(d, k).window && m.seqNum !in Moved(d, k).backOffMap
    ensures m.seqNum in SeqNums(Moved(d, k).window)
  {
  }

  lemma TickKeepsSender(c: ClientState)
    requires SenderOk(c)
    ensures SenderOk(TickArm(c))
  {
  }

  lemma ReceivingKeepsSender(c: ClientState, d: ClientState)
    requires SenderOk(c)
    requires d.window == c.window && d.unsentMessages == c.unsentMessages && d.backOffMap == c.backOffMap
    requires d.sendingSeqNum == c.sendingSeqNum
    ensures SenderOk(d)
  {
  }

  lemma ToReadKeeps(c: ClientState)
    requires ReceiverOk(c)
    ensures ReceiverOk(ToRead(c))
  {
    var sorted := SortBySeqNum(c.receivedRecord);
    SortKeeps(c.receivedRecord);
    forall m | m in ToRead(c).receivedRecord
      ensures m in c.receivedRecord && (m in sorted[1..] && sorted != [] ==> m.seqNum > sorted[0].seqNum)
    {
      assert m in c.receivedRecord || m in sorted;
    }
  }

  // ---------- The event loop ----------

  lemma DueMessagesStep(window: seq<Message>, timers: map<int, BackOff>, i: nat)
    requires i < |window| && SeqNums(window) <= timers.Keys
    ensures SeqNums(window[..i]) <= SeqNums(window[..i + 1]) <= timers.Keys
    ensures window[i].seqNum in timers
    ensures DueMessages(window[..i + 1], timers)
         == DueMessages(window[..i], timers) + if ClientDue(timers[window[i].seqNum]) then [window[i]] else []
  {
    assert window[..i + 1] == window[..i] + [window[i]];
    SeqNumsConcat(window[..i], [window[i]]);
    assert window[i] in window && forall m | m in window[..i + 1] :: m in window;
    assert window[..i + 1][..i] == window[..i];
  }

  lemma PrefixBefore(sent: seq<Message>, rest: seq<Message>)
    ensures (sent + rest)[..|sent + rest| - |rest|] == sent
  {
  }

  lemma HeadMoves(sent: seq<Message>, rest: seq<Message>)
    requires rest != []
    ensures (sent + [rest[0]]) + rest[1..] == sent + rest
  {
  }

  lemma GateIs(c: ClientState)
    ensures GateOpen(c) <==> WindowSpan(c.window) < c.params.windowSize && |c.window| < c.params.maxUnackedMessages
  {
  }

  class Client {
    const params: Params
    var connId: int
    var sendingSeqNum: int
    var unsentMessages: seq<Message>
    var window: seq<Message>
    var backOffMap: map<int, BackOff>
    var receiveSeqNum: int
    var receivedRecord: seq<Message>
    var readPayloads: Option<Payload>
    var idleEpochTime: int
    var isMessageSent: bool
    var isClosed: bool

    ghost function State(): ClientState
      reads this
    {
      ClientState(params, connId, sendingSeqNum, unsentMessages, window, backOffMap, receiveSeqNum, receivedRecord,
                  readPayloads, idleEpochTime, isMessageSent)
    }

    constructor (params: Params, connId: int, isn: int)
      ensures State() == Established(params, connId, isn) && !isClosed
    {
      this.params, this.connId := params, connId;
      sendingSeqNum, receiveSeqNum := isn + 1, isn + 1;
      unsentMessages, window, backOffMap := [], [], map[];
      receivedRecord, readPayloads := [], None;
      idleEpochTime, isMessageSent, isClosed := 0, true, false;
    }

    method GetWindowSize() returns (size: int)
      ensures size == WindowSpan(window)
    {
      if |window| == 0 {
        return 0;
      }
      return window[|window| - 1].seqNum - window[0].seqNum + 1;
    }

    // One round of manageToSend's loop
    method SendOldest() returns (message: Message)
      requires unsentMessages != []
      modifies this`unsentMessages, this`window, this`backOffMap
      ensures State() == PromoteOldest(old(State()))
      ensures [message] + unsentMessages == old(unsentMessages)
    {
      message := unsentMessages[0];
      unsentMessages := unsentMessages[1..];
      window := SortBySeqNum(window + [message]);
      backOffMap := backOffMap[message.seqNum := BackOff(0, 0)];
    }

    method ManageToSend() returns (sent: seq<Message>)
      modifies this`unsentMessages, this`window, this`backOffMap
      ensures State() == ToSend(old(State()))
      ensures sent == Transmitted(old(State()), State())
    {
      hide Sort, SeqNums, GateOpen, PromoteOldest;
      sent := [];
      ghost var start, queue := State(), unsentMessages;
      while |unsentMessages| != 0
        invariant ToSend(State()) == ToSend(start)
        invariant sent + unsentMessages == queue
        decreases |unsentMessages|
        modifies this`unsentMessages, this`window, this`backOffMap
      {
        var span := GetWindowSize();
        if !(span < params.windowSize && |window| < params.maxUnackedMessages) {
          GateIs(State());
          break;
        }
        GateIs(State());
        HeadMoves(sent, unsentMessages);
        var message := SendOldest();
        sent := sent + [message];
      }
      PrefixBefore(sent, unsentMessages);
    }

    // manageToSend as its three callers use it
    method SendAndFlag() returns (sent: seq<Message>)
      modifies this`unsentMessages, this`window, this`backOffMap, this`isMessageSent
      ensures State() == SendQueued(old(State())) && sent == Transmitted(old(State()), State())
    {
      hide ToSend;
      sent := ManageToSend();
      if sent != [] {
        isMessageSent := true;
      }
    }

    method HandleWrite(payload: Payload) returns (sent: seq<Message>)
      modifies this
      ensures isClosed == old(isClosed)
      ensures State() == WriteArm(old(State()), payload)
      ensures sent == Transmitted(Queued(old(State()), payload), State())
    {
      var message := Message(connId, sendingSeqNum, payload);
      sendingSeqNum := sendingSeqNum + 1;
      unsentMessages := unsentMessages + [message];
      sent := SendAndFlag();
    }

    method SetUp(id: int) returns (connected: bool)
      modifies this`connId
      ensures connected == (old(connId) == -1) && State() == Named(old(State()), id)
    {
      connected := connId == -1;
      if connected {
        connId := id;
      }
    }

    method ClientCloseCheck() returns (ready: bool)
      ensures ready == CloseReady(State())
    {
      ready := |unsentMessages| == 0 && |receivedRecord| == 0 && readPayloads == None;
    }

    // The first acknowledgement brings the id of the connection. A pending Close may be complete; the loop then ends
    // before the timers are looked at.
    method HandleAck(id: int, n: int) returns (sent: seq<Message>, connected: bool, stop: bool)
      modifies this
      ensures connected == (old(connId) == -1)
      ensures stop <==> isClosed && old(unsentMessages) == [] && old(receivedRecord) == [] && old(readPayloads) == None
      ensures var s := Named(old(State()), id);
              State() == if stop then Acked(s, n).(backOffMap := s.backOffMap) else AckArm(s, n)
      ensures sent == if stop then [] else Transmitted(old(State()), State())
      ensures isClosed == old(isClosed)
    {
      hide SendQueued, Without;
      idleEpochTime := 0;
      connected := SetUp(id);
      window := RemoveFromSlice(window, n);
      sent, stop := [], false;
      if isClosed {
        stop := ClientCloseCheck();
        if stop {
          return;
        }
      }
      backOffMap := backOffMap - {n};
      sent := SendAndFlag();
    }

    method DropTimersThrough(n: int)
      modifies this`backOffMap
      ensures backOffMap == map k | k in old(backOffMap) && k > n :: old(backOffMap)[k]
    {
      backOffMap := map key | key in backOffMap && key > n :: backOffMap[key];
    }

    method HandleCAck(id: int, n: int) returns (sent: seq<Message>, connected: bool, stop: bool)
      modifies this
      ensures connected == (old(connId) == -1)
      ensures stop <==> isClosed && old(unsentMessages) == [] && old(receivedRecord) == [] && old(readPayloads) == None
      ensures var s := Named(old(State()), id);
              State() == if stop then CAcked(s, n).(backOffMap := s.backOffMap) else CAckArm(s, n)
      ensures sent == if stop then [] else Transmitted(old(State()), State())
      ensures isClosed == old(isClosed)
    {
      hide SendQueued, Messages.After;
      idleEpochTime := 0;
      connected := SetUp(id);
      window := RemoveFromSliceCAck(window, n);
      sent, stop := [], false;
      if isClosed {
        stop := ClientCloseCheck();
        if stop {
          return;
        }
      }
      DropTimersThrough(n);
      sent := SendAndFlag();
    }

    // Close, as the loop sees it
    method HandleClose() returns (stop: bool)
      modifies this`isClosed
      ensures isClosed && State() == old(State())
      ensures stop <==> unsentMessages == [] && receivedRecord == [] && readPayloads == None
    {
      isClosed := true;
      stop := ClientCloseCheck();
    }

    method ManageReceived()
      modifies this`readPayloads, this`receivedRecord, this`receiveSeqNum
      ensures State() == ToRead(old(State()))
    {
      if readPayloads != None {
        return;
      }
      receivedRecord := SortBySeqNum(receivedRecord);
      if |receivedRecord| > 0 && receivedRecord[0].seqNum == receiveSeqNum {
        readPayloads := Some(receivedRecord[0].payload);
        receivedRecord := receivedRecord[1..];
        receiveSeqNum := receiveSeqNum + 1;
      }
    }

    method HandleData(message: Message) returns (ack: int)
      modifies this
      ensures isClosed == old(isClosed)
      ensures State() == DataArm(old(State()), message)
      ensures ack == message.seqNum
    {
      idleEpochTime := 0;
      if message.seqNum >= receiveSeqNum {
        var isDuplicate := false;
        for i := 0 to |receivedRecord|
          invariant !isDuplicate && forall j | 0 <= j < i :: receivedRecord[j].seqNum != message.seqNum
        {
          if message.seqNum == receivedRecord[i].seqNum {
            isDuplicate := true;
            assert receivedRecord[i] in receivedRecord;
            break;
          }
        }
        assert isDuplicate <==> message.seqNum in SeqNums(receivedRecord);
        if !isDuplicate {
          receivedRecord := receivedRecord + [message];
        }
      }
      ManageReceived();
      ack := message.seqNum;
    }

    method HandleReadRequest()
      modifies this
      ensures isClosed == old(isClosed)
      ensures State() == ToRead(old(State()))
    {
      ManageReceived();
    }

    // Read receives from the channel
    method TakePayload() returns (payload: Payload)
      requires readPayloads.Some?
      modifies this`readPayloads
      ensures State() == Taken(old(State())) && payload == old(readPayloads).value
    {
      payload := readPayloads.value;
      readPayloads := None;
    }

    // The body of the retransmission loop
    method TickTimer(message: Message) returns (fired: bool)
      requires message.seqNum in backOffMap
      modifies this`backOffMap
      ensures fired == ClientDue(old(backOffMap)[message.seqNum])
      ensures backOffMap == old(backOffMap)[message.seqNum :=
                              ClientTick(old(backOffMap)[message.seqNum], params.maxBackOffInterval)]
    {
      var seqNum := message.seqNum;
      var timer := backOffMap[seqNum];
      fired := timer.epochElapsed >= timer.currentBackoff;
      if fired {
        if timer.currentBackoff == 0 {
          timer := timer.(currentBackoff := 1);
        } else {
          timer := timer.(currentBackoff := timer.currentBackoff * 2);
        }
        if timer.currentBackoff > params.maxBackOffInterval {
          timer := timer.(currentBackoff := params.maxBackOffInterval);
        }
        timer := timer.(epochElapsed := 0);
      }
      timer := timer.(epochElapsed := timer.epochElapsed + 1);
      backOffMap := backOffMap[seqNum := timer];
    }

    // A message in the window without a timer would be a nil dereference.
    method Retransmit() returns (resent: seq<Message>)
      requires Ascending(window) && SeqNums(window) <= backOffMap.Keys
      modifies this`backOffMap
      ensures backOffMap == TickTimers(window, old(backOffMap), params.maxBackOffInterval)
      ensures resent == DueMessages(window, old(backOffMap))
    {
      resent := [];
      ghost var timers := backOffMap;
      assert SeqNums([]) == {};
      assert TickTimers([], timers, params.maxBackOffInterval) == timers;
      for i := 0 to |window|
        invariant SeqNums(window[..i]) <= timers.Keys
        invariant backOffMap == TickTimers(window[..i], timers, params.maxBackOffInterval)
        invariant resent == DueMessages(window[..i], timers)
      {
        DueMessagesStep(window, timers, i);
        TickOneMore(window, timers, i, params.maxBackOffInterval);
        assert window[i].seqNum !in SeqNums(window[..i]);
        var fired := TickTimer(window[i]);
        if fired {
          resent := resent + [window[i]];
        }
      }
      assert window[..|window|] == window;
    }

    method HandleTick() returns (heartbeat: bool, closed: bool, resent: seq<Message>)
      requires Ascending(window) && SeqNums(window) <= backOffMap.Keys
      modifies this
      ensures isClosed == old(isClosed)
      ensures State() == TickArm(old(State()))
      ensures heartbeat == !old(isMessageSent)
      ensures closed == GivesUp(old(State()))
      ensures resent == if closed then [] else DueMessages(old(window), old(backOffMap))
    {
      hide DueMessages, TickTimers, Ascending;
      heartbeat := !isMessageSent;
      isMessageSent := false;
      resent := [];
      if idleEpochTime >= params.epochLimit && |receivedRecord| == 0 && readPayloads == None {
        closed := true;
        return;
      }
      closed := false;
      idleEpochTime := idleEpochTime + 1;
      resent := Retransmit();
      if resent != [] {
        isMessageSent := true;
      }
    }
  }

  lemma TickOneMore(window: seq<Message>, timers: map<int, BackOff>, i: nat, max: int)
    requires i < |window| && window[i].seqNum in timers
    ensures TickTimers(window[..i + 1], timers, max)
         == TickTimers(window[..i], timers, max)[window[i].seqNum := ClientTick(timers[window[i].seqNum], max)]
  {
  }
}
