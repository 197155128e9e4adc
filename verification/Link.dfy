/**
 One established connection: a client, the server's record of it, and the network between them. Each step is an
 arm of one of the two event loops; `Inv` couples the two ends in both directions to the abstract streams.
 */
module Links {
  import opened Messages
  import opened Streams
  import opened Backoff
  import C = ClientSide
  import S = ServerSide

  // The four packet sets hold everything ever sent: the network may lose, delay, reorder and repeat packets.
  datatype Link = Link(
    connId: int,
    isn: int,
    params: Params,                   // the server's
    client: C.ClientState,
    server: S.ServerConn,
    toServerData: set<Message>,
    toServerAcks: set<int>,
    toClientData: set<Message>,
    toClientAcks: set<int>,
    clientWrote: seq<Payload>,        // given to the client's Write
    serverWrote: seq<Payload>,        // given to the server's Write for this connection
    inbox: seq<Payload>,              // appended to the server's read list for this connection
    clientRead: seq<Payload>)         // taken by the client's Read

  // The state once both ends agree on the id; the acknowledgement of the request may still be under way.
  function Opening(connId: int, addr: S.Addr, isn: int, clientParams: Params, serverParams: Params): Link {
    Link(connId, isn, serverParams, C.Established(clientParams, connId, isn), S.Opened(addr, isn),
         {}, {}, {}, {isn}, [], [], [], [])
  }

  function Numbers(lo: int, hi: int): (r: set<int>)
    ensures forall n :: n in r <==> lo <= n < hi
    decreases hi - lo
  {
    if lo < hi then Numbers(lo, hi - 1) + {hi - 1} else {}
  }

  // What the client has accepted: everything below its counter and everything in its record.
  function ClientHeld(first: int, c: C.ClientState): set<int> {
    Numbers(first, c.receiveSeqNum) + SeqNums(c.receivedRecord)
  }

  // Payloads that left the client's record: taken by Read, or in the channel.
  function HandedOver(l: Link): seq<Payload> {
    l.clientRead + if l.client.readPayloads.Some? then [l.client.readPayloads.value] else []
  }

  function Up(l: Link): Stream {
    Stream(l.connId, l.isn + 1, l.clientWrote, SeqNums(l.client.unsentMessages), SeqNums(l.client.window),
           l.toServerData, l.toClientAcks, l.server.dup, |l.inbox|)
  }

  function Down(l: Link): Stream {
    Stream(l.connId, l.isn + 1, l.serverWrote, SeqNums(l.server.queue), SeqNums(l.server.window), l.toClientData,
           l.toServerAcks, ClientHeld(l.isn + 1, l.client), |HandedOver(l)|)
  }

  // ---------- The invariant ----------

  ghost predicate ClientSends(c: C.ClientState, s: Stream) {
    && Ascending(c.window + c.unsentMessages)
    && Sends(c.window, c.unsentMessages, s)
    && c.connId == s.connId && c.sendingSeqNum == s.End()
  }

  /** No more than this outlives a cumulative acknowledgement: the window may then hold a message twice, a message may
      be in window and queue, and one in the window may have lost its timer. */
  ghost predicate ServerSends(c: S.ServerConn, s: Stream) {
    && NonDescending(c.window)
    && Sends(c.window, c.queue, s)
    && (forall n | n in c.timers :: c.timers[n].message in s.data)
    && c.serverSeq == s.End()
  }

  /** The server has accepted exactly what precedes its counter and what its list holds; the list starts beyond the
      number waited for; and what went to the read list is the beginning of what was written. */
  ghost predicate ServerReceives(c: S.ServerConn, s: Stream, inbox: seq<Payload>) {
    && c.dup == s.held
    && |inbox| == s.delivered && inbox <= s.written
    && c.readCounter == s.first + s.delivered
    && Buffered(c.outOfOrder, c.readCounter, c.dup, s.data)
  }

  // The list holds the accepted messages beyond the number waited for.
  ghost predicate Buffered(list: seq<Message>, next: int, dup: set<int>, data: set<Message>) {
    && S.Ahead(list, next)
    && (forall m | m in list :: m in data)
    && (forall n :: n in dup && n >= next <==> n in SeqNums(list))
  }

  ghost predicate ClientReceives(c: C.ClientState, s: Stream, handedOver: seq<Payload>) {
    && C.ReceiverOk(c)
    && s.held == ClientHeld(s.first, c)
    && |handedOver| == s.delivered && handedOver <= s.written
    && c.receiveSeqNum == s.first + s.delivered
    && (forall m | m in c.receivedRecord :: m in s.data)
  }

  ghost predicate Inv(l: Link) {
    && 0 <= l.isn
    && Up(l).Inv() && Down(l).Inv()
    && ClientSends(l.client, Up(l)) && ServerReceives(l.server, Up(l), l.inbox)
    && ServerSends(l.server, Down(l)) && ClientReceives(l.client, Down(l), HandedOver(l))
  }

  lemma OpeningInv(connId: int, addr: S.Addr, isn: int, clientParams: Params, serverParams: Params)
    requires 0 <= isn
    ensures Inv(Opening(connId, addr, isn, clientParams, serverParams))
  {
  }

  // ---------- The client sends ----------

  // Whatever arm precedes it, manageToSend transmits from the queue what it moves to the window.
  lemma ClientPromotes(c: C.ClientState, s: Stream)
    requires s.Inv() && ClientSends(c, s)
    ensures var r := C.SendQueued(c);
            var t := Moved(s, r.window, r.unsentMessages, C.Transmitted(c, r));
            t.Inv() && ClientSends(r, t)
  {
    hide Stream.Inv, C.SendQueued, C.Transmitted, Ascending, SeqNums;
    var r := C.SendQueued(c);
    var k := C.SendQueuedShape(c);
    var ms := c.unsentMessages[..k];
    assert r.window == c.window + ms && r.unsentMessages == c.unsentMessages[k..];
    assert r.window + r.unsentMessages == c.window + c.unsentMessages;
    assert c.unsentMessages == ms + r.unsentMessages;
    MovedSends(c.window, c.unsentMessages, s, r.window, r.unsentMessages, ms);
  }

  function ClientWrites(l: Link, p: Payload): Link {
    var r := C.WriteArm(l.client, p);
    l.(client := r, clientWrote := l.clientWrote + [p],
       toServerData := l.toServerData + Elements(C.Transmitted(C.Queued(l.client, p), r)))
  }

  function ClientGetsAck(l: Link, n: int): Link {
    var r := C.AckArm(l.client, n);
    l.(client := r, toServerData := l.toServerData + Elements(C.Transmitted(C.Acked(l.client, n), r)))
  }

  function ClientGetsCAck(l: Link, n: int): Link {
    var r := C.CAckArm(l.client, n);
    l.(client := r, toServerData := l.toServerData + Elements(C.Transmitted(C.CAcked(l.client, n), r)))
  }

  // An arm that changes the client's sending half, taking the stream to s, and then calls manageToSend.
  lemma ClientArmKeepsInv(l: Link, c: C.ClientState, s: Stream, k: Link)
    requires Inv(l) && s.Inv() && ClientSends(c, s)
    requires c == l.client.(sendingSeqNum := c.sendingSeqNum, unsentMessages := c.unsentMessages, window := c.window,
                            backOffMap := c.backOffMap, idleEpochTime := c.idleEpochTime)
    requires s == Up(l).(written := s.written, waiting := SeqNums(c.unsentMessages), pending := SeqNums(c.window))
    requires l.clientWrote <= s.written
    requires k == l.(client := C.SendQueued(c), clientWrote := s.written,
                     toServerData := l.toServerData + Elements(C.Transmitted(c, C.SendQueued(c))))
    ensures Inv(k)
  {
    hide Stream.Inv, ServerReceives, ServerSends, C.SendQueued, C.Transmitted, Ascending;
    var t := Moved(s, k.client.window, k.client.unsentMessages, C.Transmitted(c, k.client));
    ClientPromotes(c, s);
    var j := C.SendQueuedShape(c);
    assert Up(k) == t;
    assert Down(k) == Down(l) && HandedOver(k) == HandedOver(l);
    ReceiverSurvives(l, t);
  }

  // The server's receiving half looks at the stream only through what is written, sent and held.
  lemma ReceiverSurvives(l: Link, s: Stream)
    requires ServerReceives(l.server, Up(l), l.inbox)
    requires s.held == Up(l).held && s.delivered == Up(l).delivered && s.first == Up(l).first
    requires Up(l).written <= s.written && Up(l).data <= s.data
    ensures ServerReceives(l.server, s, l.inbox)
  {
  }

  lemma ClientWritesKeepsInv(l: Link, p: Payload)
    requires Inv(l)
    ensures Inv(ClientWrites(l, p))
  {
    var c, s := l.client, Up(l);
    QueuedSends(c, s, p);
    assert l.clientWrote <= s.Write(p).written;
    ClientArmKeepsInv(l, C.Queued(c, p), s.Write(p), ClientWrites(l, p));
  }

  lemma QueuedSends(c: C.ClientState, s: Stream, p: Payload)
    requires s.Inv() && ClientSends(c, s)
    ensures s.Write(p).Inv() && ClientSends(C.Queued(c, p), s.Write(p))
    ensures s.Write(p).waiting == SeqNums(C.Queued(c, p).unsentMessages)
  {
    hide Ascending, SortBySeqNum;
    var m := Message(c.connId, c.sendingSeqNum, p);
    WriteSends(c.window, c.unsentMessages, s, p);
    forall k | k in c.window + c.unsentMessages
      ensures k.seqNum < m.seqNum
    {
      assert s.Genuine(k);
    }
    AppendNext(c.window + c.unsentMessages, m);
    assert c.window + (c.unsentMessages + [m]) == (c.window + c.unsentMessages) + [m];
  }

  lemma ClientGetsAckKeepsInv(l: Link, n: int)
    requires Inv(l) && n in l.toClientAcks
    ensures Inv(ClientGetsAck(l, n))
  {
    hide Stream.Inv, ServerReceives, ServerSends, ClientReceives, C.SendQueued, Ascending;
    C.WindowAscends(l.client);
    WithoutHolds(l.client.window, n);
    WithoutStaysAscending(l.client.window, n);
    ShorterWindowKeepsInv(l, C.Acked(l.client, n), n, ClientGetsAck(l, n));
  }

  lemma WithoutStaysAscending(s: seq<Message>, n: int)
    requires Ascending(s)
    ensures Ascending(Without(s, n))
  {
  }

  /** A cumulative acknowledgement stands for the acknowledgements of every number up to its own (the network's
      middlebox makes it from them). It may cost a message its timer, but it loses none. */
  lemma ClientGetsCAckKeepsInv(l: Link, n: int)
    requires Inv(l) && forall k | l.isn < k <= n :: k in l.toClientAcks
    ensures Inv(ClientGetsCAck(l, n))
  {
    hide Stream.Inv, ServerReceives, ServerSends, ClientReceives, C.SendQueued;
    C.WindowAscends(l.client);
    AfterHolds(l.client.window, n);
    AfterRemoves(l.client.window, n);
    ShorterWindowKeepsInv(l, C.CAcked(l.client, n), n, ClientGetsCAck(l, n));
  }

  // Only numbers that were acknowledged leave the window.
  lemma ShorterWindowKeepsInv(l: Link, c: C.ClientState, n: int, k: Link)
    requires Inv(l) && c == l.client.(window := c.window, backOffMap := c.backOffMap, idleEpochTime := 0)
    requires Ascending(c.window) && forall m | m in c.window :: m in l.client.window
    requires forall m | m in l.client.window :: m in c.window || m.seqNum in l.toClientAcks
                                                || (m.seqNum <= n && forall j | l.isn < j <= n :: j in l.toClientAcks)
    requires k == l.(client := C.SendQueued(c),
                     toServerData := l.toServerData + Elements(C.Transmitted(c, C.SendQueued(c))))
    ensures Inv(k)
  {
    hide ServerReceives, ServerSends, ClientReceives, C.SendQueued;
    var s := Up(l);
    forall m | m in l.client.window
      ensures m in c.window || m.seqNum in s.held
    {
      assert s.Genuine(m);
    }
    C.ShorterWindow(l.client, c);
    MovedSends(l.client.window, l.client.unsentMessages, s, c.window, c.unsentMessages, []);
    assert s.data + Elements([]) == s.data;
    ClientArmKeepsInv(l, c, Moved(s, c.window, c.unsentMessages, []), k);
  }

  // ---------- The client receives ----------

  function ClientGetsData(l: Link, m: Message): Link {
    l.(client := C.DataArm(l.client, m), toServerAcks := l.toServerAcks + {m.seqNum})
  }

  function ClientReadRequest(l: Link): Link {
    l.(client := C.ToRead(l.client))
  }

  function ClientTakes(l: Link): Link
    requires l.client.readPayloads.Some?
  {
    l.(client := C.Taken(l.client), clientRead := HandedOver(l))
  }

  predicate NextIsRecorded(c: C.ClientState) {
    && c.readPayloads.None?
    && SortBySeqNum(c.receivedRecord) != []
    && SortBySeqNum(c.receivedRecord)[0].seqNum == c.receiveSeqNum
  }

  // The first recorded message is the next one written.
  lemma NextIsWritten(c: C.ClientState, s: Stream, handedOver: seq<Payload>)
    requires s.Inv() && ClientReceives(c, s, handedOver) && NextIsRecorded(c)
    ensures s.delivered < |s.written| && c.receiveSeqNum in s.held
    ensures SortBySeqNum(c.receivedRecord)[0].payload == s.written[s.delivered]
  {
    hide SortBySeqNum;
    var m := SortBySeqNum(c.receivedRecord)[0];
    SortKeeps(c.receivedRecord);
    assert m in c.receivedRecord && s.Genuine(m);
    assert m.seqNum in SeqNums(c.receivedRecord);
  }

  // manageReceived finds the payload that is next in order.
  lemma NextMovesOn(c: C.ClientState, s: Stream, handedOver: seq<Payload>)
    requires s.Inv() && ClientReceives(c, s, handedOver) && NextIsRecorded(c)
    ensures s.Deliver(1).Inv()
    ensures ClientReceives(C.ToRead(c), s.Deliver(1), handedOver + [SortBySeqNum(c.receivedRecord)[0].payload])
  {
    hide SortBySeqNum, ClientHeld, Stream.Inv;
    NextIsWritten(c, s, handedOver);
    SortKeeps(c.receivedRecord);
    C.ToReadKeeps(c);
    s.DeliverKeepsInv(1);
    FirstLeavesRecord(s.first, c);
  }

  lemma NextIsDelivered(l: Link)
    requires Down(l).Inv() && ClientReceives(l.client, Down(l), HandedOver(l)) && NextIsRecorded(l.client)
    ensures var k := ClientReadRequest(l);
            && Down(k) == Down(l).Deliver(1) && Down(k).Inv()
            && ClientReceives(k.client, Down(k), HandedOver(k))
  {
    var c, k := l.client, ClientReadRequest(l);
    NextMovesOn(c, Down(l), HandedOver(l));
    FirstLeavesRecord(l.isn + 1, c);
    assert HandedOver(k) == HandedOver(l) + [SortBySeqNum(c.receivedRecord)[0].payload];
  }

  // A number that leaves the record is below the counter from then on.
  lemma FirstLeavesRecord(first: int, c: C.ClientState)
    requires NextIsRecorded(c) && first <= c.receiveSeqNum
    ensures ClientHeld(first, C.ToRead(c)) == ClientHeld(first, c)
  {
    hide SortBySeqNum;
    var sorted := SortBySeqNum(c.receivedRecord);
    SortKeeps(c.receivedRecord);
    assert sorted == [sorted[0]] + sorted[1..];
    SeqNumsConcat([sorted[0]], sorted[1..]);
    assert SeqNums([sorted[0]]) == {c.receiveSeqNum};
  }

  lemma ToReadDelivers(l: Link)
    requires Down(l).Inv() && ClientReceives(l.client, Down(l), HandedOver(l))
    ensures var k := ClientReadRequest(l);
            && Down(k) == Down(l).Deliver(|HandedOver(k)| - |HandedOver(l)|) && Down(k).Inv()
            && ClientReceives(k.client, Down(k), HandedOver(k))
  {
    var c := l.client;
    var sorted := SortBySeqNum(c.receivedRecord);
    SortKeeps(c.receivedRecord);
    C.ToReadKeeps(c);
    if NextIsRecorded(c) {
      NextIsDelivered(l);
    }
  }

  // A step of the client's receiving half.
  lemma ClientReceivingKeepsInv(l: Link, k: Link)
    requires Inv(l)
    requires k == l.(client := l.client.(receiveSeqNum := k.client.receiveSeqNum,
                                         receivedRecord := k.client.receivedRecord,
                                         readPayloads := k.client.readPayloads,
                                         idleEpochTime := k.client.idleEpochTime),
                     toServerAcks := k.toServerAcks, clientRead := k.clientRead)
    requires Down(k).Inv() && ClientReceives(k.client, Down(k), HandedOver(k))
    ensures Inv(k)
  {
    hide Stream.Inv, Ascending, Buffered, ClientReceives, ClientHeld;
    assert Up(k) == Up(l);
  }

  lemma ClientReadRequestKeepsInv(l: Link)
    requires Inv(l)
    ensures Inv(ClientReadRequest(l))
  {
    ToReadDelivers(l);
    ClientReceivingKeepsInv(l, ClientReadRequest(l));
  }

  lemma ClientTakesKeepsInv(l: Link)
    requires Inv(l) && l.client.readPayloads.Some?
    ensures Inv(ClientTakes(l))
  {
    var k := ClientTakes(l);
    assert HandedOver(k) == HandedOver(l);
    assert Down(k) == Down(l);
    ClientReceivingKeepsInv(l, k);
  }

  function ClientRecords(l: Link, m: Message): Link {
    l.(client := C.Recorded(l.client, m), toServerAcks := l.toServerAcks + {m.seqNum})
  }

  lemma RecordedIsReceived(c: C.ClientState, s: Stream, handedOver: seq<Payload>, m: Message)
    requires s.Inv() && ClientReceives(c, s, handedOver) && m in s.data
    ensures s.Receive(m.seqNum).Inv() && ClientReceives(C.Recorded(c, m), s.Receive(m.seqNum), handedOver)
  {
    assert s.Genuine(m);
    s.ReceiveKeepsInv(m);
    RecordedIsHeld(s.first, c, m);
  }

  lemma RecordedIsHeld(first: int, c: C.ClientState, m: Message)
    requires first <= m.seqNum
    ensures ClientHeld(first, C.Recorded(c, m)) == ClientHeld(first, c) + {m.seqNum}
  {
  }

  lemma ClientRecordsReceives(l: Link, m: Message)
    requires Down(l).Inv() && ClientReceives(l.client, Down(l), HandedOver(l)) && m in l.toClientData
    ensures var k := ClientRecords(l, m);
            && Down(k) == Down(l).Receive(m.seqNum) && Down(k).Inv()
            && ClientReceives(k.client, Down(k), HandedOver(k))
  {
    var k := ClientRecords(l, m);
    assert Down(l).Genuine(m);
    RecordedIsReceived(l.client, Down(l), HandedOver(l), m);
    RecordedIsHeld(l.isn + 1, l.client, m);
    assert HandedOver(k) == HandedOver(l);
  }

  lemma ClientGetsDataKeepsInv(l: Link, m: Message)
    requires Inv(l) && m in l.toClientData
    ensures Inv(ClientGetsData(l, m))
  {
    var k := ClientRecords(l, m);
    ClientRecordsReceives(l, m);
    ClientReceivingKeepsInv(l, k);
    ClientReadRequestKeepsInv(k);
    assert ClientGetsData(l, m) == ClientReadRequest(k);
  }

  // The client's epoch: timers move, and what is retransmitted was sent before. A heartbeat may go out.
  function ClientTicks(l: Link): Link
    requires SeqNums(l.client.window) <= l.client.backOffMap.Keys
  {
    var due := C.DueMessages(l.client.window, l.client.backOffMap);
    l.(client := C.TickArm(l.client),
       toServerAcks := l.toServerAcks + if l.client.isMessageSent then {} else {0},
       toServerData := l.toServerData + if C.GivesUp(l.client) then {} else Elements(due))
  }

  lemma ClientTicksKeepsInv(l: Link)
    requires Inv(l) && SeqNums(l.client.window) <= l.client.backOffMap.Keys
    ensures Inv(ClientTicks(l))
  {
    var k, c := ClientTicks(l), l.client;
    var mid := l.(client := c.(backOffMap := k.client.backOffMap, isMessageSent := k.client.isMessageSent));
    NothingNewIsSent(l);
    TimersMoveKeepsInv(l, mid);
    HeartbeatKeepsInv(mid, k);
  }

  lemma HeartbeatKeepsInv(l: Link, k: Link)
    requires Inv(l)
    requires k == l.(client := l.client.(idleEpochTime := k.client.idleEpochTime), toServerAcks := k.toServerAcks)
    requires k.toServerAcks == l.toServerAcks || k.toServerAcks == l.toServerAcks + {0}
    ensures Inv(k)
  {
    Down(l).ControlKeepsInv(0);
    assert Down(k) == Down(l) || Down(k) == Down(l).Control(0);
    ClientReceivingKeepsInv(l, k);
  }

  lemma TimersMoveKeepsInv(l: Link, k: Link)
    requires Inv(l)
    requires k == l.(client := l.client.(backOffMap := k.client.backOffMap, isMessageSent := k.client.isMessageSent))
    ensures Inv(k)
  {
    assert Up(k) == Up(l) && Down(k) == Down(l) && HandedOver(k) == HandedOver(l);
  }

  lemma NothingNewIsSent(l: Link)
    requires ClientSends(l.client, Up(l)) && SeqNums(l.client.window) <= l.client.backOffMap.Keys
    ensures ClientTicks(l).toServerData == l.toServerData
  {
    C.DueMessagesExact(l.client.window, l.client.backOffMap);
  }

  // ---------- The server sends ----------

  function ServerWrites(l: Link, p: Payload): Link {
    l.(server := S.SendArm(l.params, l.connId, l.server, p),
       serverWrote := l.serverWrote + [p],
       toClientData := l.toClientData + Elements(S.SendSends(l.params, l.connId, l.server, p)))
  }

  function ServerGetsAck(l: Link, n: int): Link {
    l.(server := S.AckArm(l.params, l.server, n),
       toClientData := l.toClientData + Elements(S.AckSends(l.params, l.server, n)))
  }

  function ServerGetsCAck(l: Link, n: int): Link {
    l.(server := S.CAckArm(l.params, l.server, n),
       toClientData := l.toClientData + Elements(S.CAckSends(l.params, l.server, n)))
  }

  // A step of the server's sending half, which takes the stream to s.
  lemma ServerSendingKeepsInv(l: Link, k: Link, s: Stream)
    requires Inv(l)
    requires k.connId == l.connId && k.isn == l.isn && k.params == l.params && k.client == l.client
    requires k.toServerData == l.toServerData && k.toClientAcks == l.toClientAcks && k.clientWrote == l.clientWrote
    requires k.inbox == l.inbox && k.clientRead == l.clientRead
    requires k.server.readCounter == l.server.readCounter && k.server.dup == l.server.dup
    requires k.server.outOfOrder == l.server.outOfOrder
    requires Down(l).data <= s.data && Down(l).written <= s.written && s.held == Down(l).held
    requires Down(k) == s && s.Inv() && ServerSends(k.server, s)
    ensures Inv(k)
  {
    assert Up(k) == Up(l);
  }

  lemma ServerWritesKeepsInv(l: Link, p: Payload)
    requires Inv(l)
    ensures Inv(ServerWrites(l, p))
  {
    hide Stream.Inv, ServerReceives, ClientSends, SortBySeqNum, S.SendSends;
    var k := ServerWrites(l, p);
    SendArmSends(l.params, l.server, Down(l), p);
    assert HandedOver(k) == HandedOver(l);
    ServerSendingKeepsInv(l, k, Written(l.params, l.server, Down(l), p));
  }

  function Written(params: Params, c: S.ServerConn, s: Stream, p: Payload): Stream {
    var d := S.SendArm(params, s.connId, c, p);
    Moved(s.Write(p), d.window, d.queue, S.SendSends(params, s.connId, c, p))
  }

  lemma SendArmSends(params: Params, c: S.ServerConn, s: Stream, p: Payload)
    requires s.Inv() && ServerSends(c, s)
    ensures var t := Written(params, c, s, p);
            t.Inv() && ServerSends(S.SendArm(params, s.connId, c, p), t)
  {
    hide Stream.Inv, SortBySeqNum, SeqNums, NonDescending;
    var m := Message(s.connId, c.serverSeq, p);
    WriteSends(c.window, c.queue, s, p);
    if S.Admits(params, c.window, c.serverSeq) {
      SortKeeps(c.window + [m]);
      SortNonDescending(c.window + [m]);
      MovedSends(c.window, c.queue + [m], s.Write(p), SortBySeqNum(c.window + [m]), c.queue, [m]);
    } else {
      SortKeeps(c.queue + [m]);
      MovedSends(c.window, c.queue + [m], s.Write(p), c.window, SortBySeqNum(c.queue + [m]), []);
    }
  }

  // A promotion may take messages out of the queue or, in the arm for cumulative acknowledgements, leave them in.
  lemma PromotionSends(params: Params, c: S.ServerConn, s: Stream, window: seq<Message>, queue: seq<Message>)
    requires s.Inv() && ServerSends(c, s)
    requires NonDescending(window) && forall m | m in window :: m in c.window
    requires forall m | m in c.window :: m in window || m.seqNum in s.held
    requires var ms := S.Promotable(params, window, c.queue); queue == c.queue || queue == S.WithoutAll(c.queue, ms)
    ensures var ms := S.Promotable(params, window, c.queue);
            var w := S.Extended(window, ms);
            && Moved(s, w, queue, ms).Inv() && Sends(w, queue, Moved(s, w, queue, ms))
            && NonDescending(w) && forall m | m in ms :: m in Moved(s, w, queue, ms).data
  {
    hide Stream.Inv, NonDescending, S.Promotable, S.Extended, S.WithoutAll;
    var ms := S.Promotable(params, window, c.queue);
    var w := S.Extended(window, ms);
    S.PromotableFrom(params, window, c.queue);
    S.ExtendedHolds(window, ms);
    S.ExtendedNonDescending(window, ms);
    S.WithoutAllHolds(c.queue, ms);
    forall m | m in c.queue
      ensures m in queue || m in w
    {
      if m.seqNum in SeqNums(ms) {
        var k :| k in ms && k.seqNum == m.seqNum;
        assert s.Genuine(k) && s.Genuine(m);
      }
    }
    MovedSends(c.window, c.queue, s, w, queue, ms);
  }

  // The arms for both kinds of acknowledgement: the window loses numbers the client has accepted, then promotion.
  lemma PromotionKeepsInv(l: Link, window: seq<Message>, queue: seq<Message>, timers: map<int, S.BackOffInfo>, k: Link)
    requires Inv(l)
    requires NonDescending(window) && forall m | m in window :: m in l.server.window
    requires forall m | m in l.server.window :: m in window || m.seqNum in Down(l).held
    requires forall n | n in timers :: n in l.server.timers && timers[n] == l.server.timers[n]
    requires var ms := S.Promotable(l.params, window, l.server.queue);
             && (queue == l.server.queue || queue == S.WithoutAll(l.server.queue, ms))
             && k == l.(server := l.server.(idle := 0, window := S.Extended(window, ms), queue := queue,
                                            timers := S.Started(timers, ms)),
                        toClientData := l.toClientData + Elements(ms))
    ensures Inv(k)
  {
    hide Stream.Inv, NonDescending, ServerReceives, ClientReceives, ClientSends, S.Promotable, S.Extended, S.WithoutAll,
         S.Started;
    var ms := S.Promotable(l.params, window, l.server.queue);
    PromotionSends(l.params, l.server, Down(l), window, queue);
    S.StartedHolds(timers, ms);
    assert HandedOver(k) == HandedOver(l);
    ServerSendingKeepsInv(l, k, Moved(Down(l), k.server.window, queue, ms));
  }

  lemma ServerGetsAckKeepsInv(l: Link, n: int)
    requires Inv(l) && n in l.toServerAcks
    ensures Inv(ServerGetsAck(l, n))
  {
    hide Stream.Inv, ServerReceives, ClientReceives, ClientSends, S.Promotable, S.Extended, S.WithoutAll, S.Started,
         ClientHeld, Without, NonDescending;
    var c := l.server;
    WithoutHolds(c.window, n);
    WithoutNonDescending(c.window, n);
    AckedIsHeld(l, c.window, n);
    if n in c.timers {
      PromotionKeepsInv(l, Without(c.window, n), S.AckArm(l.params, c, n).queue, c.timers - {n}, ServerGetsAck(l, n));
    } else {
      OnlyRetiredKeepsInv(l, n);
    }
  }

  lemma AckedIsHeld(l: Link, window: seq<Message>, n: int)
    requires Down(l).Inv() && ServerSends(l.server, Down(l)) && n in l.toServerAcks
    ensures forall m | m in l.server.window && m.seqNum == n :: m.seqNum in Down(l).held
  {
    forall m | m in l.server.window && m.seqNum == n
      ensures m.seqNum in Down(l).held
    {
      assert Down(l).Genuine(m);
    }
  }

  lemma OnlyRetiredKeepsInv(l: Link, n: int)
    requires Inv(l) && n in l.toServerAcks && n !in l.server.timers
    ensures Inv(ServerGetsAck(l, n))
  {
    hide Stream.Inv, ServerReceives, ClientReceives, ClientSends, ClientHeld, Without, NonDescending;
    var c, s, k := l.server, Down(l), ServerGetsAck(l, n);
    WithoutHolds(c.window, n);
    WithoutNonDescending(c.window, n);
    AckedIsHeld(l, c.window, n);
    MovedSends(c.window, c.queue, s, Without(c.window, n), c.queue, []);
    assert HandedOver(k) == HandedOver(l);
    ServerSendingKeepsInv(l, k, Moved(s, Without(c.window, n), c.queue, []));
  }

  /** A cumulative acknowledgement leaves the promoted messages in the queue and drops timers, yet no message is lost:
      what leaves the window was accepted by the client. */
  lemma ServerGetsCAckKeepsInv(l: Link, n: int)
    requires Inv(l) && forall k | l.isn < k <= n :: k in l.toServerAcks
    ensures Inv(ServerGetsCAck(l, n))
  {
    hide Stream.Inv, ServerReceives, ClientReceives, ClientSends, S.Promotable, S.Extended, S.Started, ClientHeld,
         After, NonDescending;
    var c := l.server;
    AfterHolds(c.window, n);
    CoveredIsHeld(l, n);
    PromotionKeepsInv(l, After(c.window, n), c.queue, c.timers - SeqNums(c.window), ServerGetsCAck(l, n));
  }

  lemma CoveredIsHeld(l: Link, n: int)
    requires Down(l).Inv() && ServerSends(l.server, Down(l)) && forall k | l.isn < k <= n :: k in l.toServerAcks
    ensures forall m | m in l.server.window && m.seqNum <= n :: m.seqNum in Down(l).held
  {
    forall m | m in l.server.window && m.seqNum <= n
      ensures m.seqNum in Down(l).held
    {
      assert Down(l).Genuine(m);
    }
  }

  // ---------- The server receives ----------

  function ServerGetsData(l: Link, m: Message): Link {
    l.(server := S.DataArm(l.server, m),
       toClientAcks := l.toClientAcks + {m.seqNum},
       inbox := l.inbox + Payloads(S.Pushed(l.server, m)))
  }

  // A step of the server's receiving half, which takes the stream to s.
  lemma ServerReceivingKeepsInv(l: Link, k: Link, s: Stream)
    requires Inv(l)
    requires k.connId == l.connId && k.isn == l.isn && k.params == l.params && k.client == l.client
    requires k.toClientData == l.toClientData && k.toServerAcks == l.toServerAcks
    requires k.serverWrote == l.serverWrote && k.clientRead == l.clientRead
    requires k.server == l.server.(readCounter := k.server.readCounter, outOfOrder := k.server.outOfOrder,
                                   dup := k.server.dup, idle := k.server.idle)
    requires s == Up(l).(acks := s.acks, held := s.held, delivered := s.delivered)
    requires Up(k) == s && s.Inv() && ServerReceives(k.server, s, k.inbox)
    ensures Inv(k)
  {
    assert Down(k) == Down(l);
    assert HandedOver(k) == HandedOver(l);
  }

  lemma ServerGetsDuplicate(l: Link, m: Message)
    requires Inv(l) && m in l.toServerData && m.seqNum in l.server.dup
    ensures Inv(ServerGetsData(l, m))
  {
    var s := Up(l);
    var k := ServerGetsData(l, m);
    s.ReceiveKeepsInv(m);
    assert s.held + {m.seqNum} == s.held;
    assert k.inbox == l.inbox;
    ServerReceivingKeepsInv(l, k, s.Receive(m.seqNum));
  }

  lemma EarlyIsReceived(c: S.ServerConn, s: Stream, inbox: seq<Payload>, m: Message)
    requires s.Inv() && ServerReceives(c, s, inbox)
    requires m in s.data && m.seqNum != c.readCounter && m.seqNum !in c.dup
    ensures s.Receive(m.seqNum).Inv() && ServerReceives(S.DataArm(c, m), s.Receive(m.seqNum), inbox)
  {
    assert s.Genuine(m);
    s.ReceiveKeepsInv(m);
    assert m.seqNum > c.readCounter;
    SeqNumsConcat(c.outOfOrder, [m]);
    assert SeqNums([m]) == {m.seqNum};
    assert forall j | j in c.outOfOrder :: j.seqNum in SeqNums(c.outOfOrder);
  }

  lemma ServerGetsEarly(l: Link, m: Message)
    requires Inv(l) && m in l.toServerData && m.seqNum !in l.server.dup && m.seqNum != l.server.readCounter
    ensures Inv(ServerGetsData(l, m))
  {
    var k := ServerGetsData(l, m);
    EarlyIsReceived(l.server, Up(l), l.inbox, m);
    assert k.inbox == l.inbox;
    ServerReceivingKeepsInv(l, k, Up(l).Receive(m.seqNum));
  }

  // What is pushed is the next stretch of what was written.
  lemma PushedIsWritten(s: Stream, inbox: seq<Payload>, pushed: seq<Message>)
    requires s.Inv() && |inbox| == s.delivered && inbox <= s.written
    requires forall i | 0 <= i < |pushed| :: pushed[i] in s.data && pushed[i].seqNum == s.first + s.delivered + i
    ensures inbox + Payloads(pushed) <= s.written
  {
    forall i | 0 <= i < |pushed|
      ensures s.delivered + i < |s.written| && pushed[i].payload == s.written[s.delivered + i]
    {
      assert s.Genuine(pushed[i]);
    }
    if pushed != [] {
      var last := |pushed| - 1;
      assert s.Genuine(pushed[last]);
      assert pushed[last].seqNum == s.first + s.delivered + last;
    }
    var all := inbox + Payloads(pushed);
    assert |all| <= |s.written|;
    assert forall i | 0 <= i < |all| :: all[i] == s.written[i];
  }

  // The messages pushed by the number waited for: consecutive numbers, all accepted, all sent by the client.
  lemma PushedRun(c: S.ServerConn, s: Stream, inbox: seq<Payload>, m: Message)
    requires ServerReceives(c, s, inbox) && m in s.data && m.seqNum == c.readCounter && m.seqNum !in c.dup
    ensures forall i | 0 <= i < |S.Pushed(c, m)| :: S.Pushed(c, m)[i] in s.data
    ensures forall i | 0 <= i < |S.Pushed(c, m)| :: S.Pushed(c, m)[i].seqNum == m.seqNum + i
    ensures forall j | m.seqNum <= j < m.seqNum + |S.Pushed(c, m)| :: j in c.dup + {m.seqNum}
  {
    hide S.Pushed, ServerReceives;
    var n, pushed := m.seqNum, S.Pushed(c, m);
    forall i | 0 <= i < |pushed|
      ensures pushed[i] in s.data && pushed[i].seqNum == n + i && pushed[i].seqNum in c.dup + {n}
    {
      PushedAt(c, s, inbox, m, i);
    }
    forall j | n <= j < n + |pushed|
      ensures j in c.dup + {n}
    {
      assert pushed[j - n].seqNum == j;
    }
  }

  lemma PushedAt(c: S.ServerConn, s: Stream, inbox: seq<Payload>, m: Message, i: nat)
    requires ServerReceives(c, s, inbox) && m in s.data && m.seqNum == c.readCounter && m.seqNum !in c.dup
    requires i < |S.Pushed(c, m)|
    ensures var p := S.Pushed(c, m)[i];
            p in s.data && p.seqNum == m.seqNum + i && p.seqNum in c.dup + {m.seqNum}
  {
    hide S.Run, S.Rest;
    var run := S.Run(c.outOfOrder, m.seqNum + 1);
    S.DrainTakesRun(c.outOfOrder, m.seqNum + 1);
    if i > 0 {
      assert S.Pushed(c, m)[i] == run[i - 1];
      assert run[i - 1].seqNum in SeqNums(c.outOfOrder);
    }
  }

  /** The number waited for arrives: it goes to the read list together with the whole run that the list holds from
      there on, and the server then waits for the first number it has not accepted. */
  lemma ServerGetsNext(l: Link, m: Message)
    requires Inv(l) && m in l.toServerData && m.seqNum == l.server.readCounter && m.seqNum !in l.server.dup
    ensures Inv(ServerGetsData(l, m))
  {
    var c, s := l.server, Up(l);
    PushedRun(c, s, l.inbox, m);
    var t := RunIsDelivered(s, m, |S.Pushed(c, m)|);
    NextIsReceived(c, s, l.inbox, m, t);
    ServerReceivingKeepsInv(l, ServerGetsData(l, m), t);
  }

  lemma NextIsReceived(c: S.ServerConn, s: Stream, inbox: seq<Payload>, m: Message, t: Stream)
    requires s.Inv() && ServerReceives(c, s, inbox)
    requires m in s.data && m.seqNum == c.readCounter && m.seqNum !in c.dup
    requires t == s.(held := s.held + {m.seqNum}, acks := s.acks + {m.seqNum},
                     delivered := s.delivered + |S.Pushed(c, m)|)
    ensures ServerReceives(S.DataArm(c, m), t, inbox + Payloads(S.Pushed(c, m)))
  {
    hide Stream.Inv, S.Run, S.Rest, Buffered;
    PushedExtends(c, s, inbox, m);
    RestIsBuffered(c.outOfOrder, m.seqNum, c.dup, s.data);
  }

  lemma PushedExtends(c: S.ServerConn, s: Stream, inbox: seq<Payload>, m: Message)
    requires s.Inv() && ServerReceives(c, s, inbox)
    requires m in s.data && m.seqNum == c.readCounter && m.seqNum !in c.dup
    ensures inbox + Payloads(S.Pushed(c, m)) <= s.written
  {
    PushedRun(c, s, inbox, m);
    PushedIsWritten(s, inbox, S.Pushed(c, m));
  }

  lemma PushedNamesConnection(l: Link, m: Message)
    requires Inv(l) && m in l.toServerData
    ensures forall p | p in S.Pushed(l.server, m) :: p.connId == l.connId
  {
    forall p | p in S.Pushed(l.server, m)
      ensures p.connId == l.connId
    {
      PushedRun(l.server, Up(l), l.inbox, m);
      assert Up(l).Genuine(p);
    }
  }

  lemma RunIsDelivered(s: Stream, m: Message, k: nat) returns (t: Stream)
    requires s.Inv() && m in s.data && m.seqNum == s.first + s.delivered
    requires forall j | m.seqNum <= j < m.seqNum + k :: j in s.held + {m.seqNum}
    ensures t == s.(held := s.held + {m.seqNum}, acks := s.acks + {m.seqNum}, delivered := s.delivered + k)
    ensures t.Inv()
  {
    s.ReceiveKeepsInv(m);
    s.Receive(m.seqNum).DeliverKeepsInv(k);
    t := s.Receive(m.seqNum).Deliver(k);
  }

  lemma RestIsBuffered(list: seq<Message>, n: int, dup: set<int>, data: set<Message>)
    requires Buffered(list, n, dup, data)
    ensures Buffered(S.Rest(list, n + 1), n + 1 + |S.Run(list, n + 1)|, dup + {n}, data)
  {
    S.DrainTakesRun(list, n + 1);
    var rest, next := S.Rest(list, n + 1), n + 1 + |S.Run(list, n + 1)|;
    forall j
      ensures j in dup + {n} && j >= next <==> j in SeqNums(rest)
    {
      if j in dup && j >= next {
        var m :| m in list && m.seqNum == j;
        assert m in rest;
      }
    }
  }

  lemma ServerGetsDataKeepsInv(l: Link, m: Message)
    requires Inv(l) && m in l.toServerData
    ensures Inv(ServerGetsData(l, m))
  {
    if m.seqNum in l.server.dup {
      ServerGetsDuplicate(l, m);
    } else if m.seqNum == l.server.readCounter {
      ServerGetsNext(l, m);
    } else {
      ServerGetsEarly(l, m);
    }
  }

  /** The server's epoch for a connection that survives it, or its first two loops and part of the third for one that
      does not */
  ghost predicate ServerTicks(l: Link, k: Link) {
    && (|| k.server == S.HeartbeatDone(S.Aged(l.server))
        || k.server == S.Ticked(l.params, S.HeartbeatDone(S.Aged(l.server))))
    && k == l.(server := k.server, toClientAcks := k.toClientAcks, toClientData := k.toClientData)
    && l.toClientAcks <= k.toClientAcks <= l.toClientAcks + {0}
    && l.toClientData <= k.toClientData <= l.toClientData + S.Due(l.server)
  }

  lemma DueWasSent(c: S.ServerConn, s: Stream)
    requires ServerSends(c, s)
    ensures S.Due(c) <= s.data
  {
  }

  lemma TickedSends(p: Params, c: S.ServerConn, s: Stream)
    requires ServerSends(c, s)
    ensures ServerSends(S.HeartbeatDone(S.Aged(c)), s)
    ensures ServerSends(S.Ticked(p, S.HeartbeatDone(S.Aged(c))), s)
  {
    hide NonDescending, Sends;
  }

  // What is retransmitted was sent before.
  lemma ServerTicksKeepsInv(l: Link, k: Link)
    requires Inv(l) && ServerTicks(l, k)
    ensures Inv(k) && k.toClientData == l.toClientData
  {
    hide Stream.Inv, ClientReceives, ServerSends, Buffered, ClientHeld, S.Due, Ascending;
    DueWasSent(l.server, Down(l));
    TickedSends(l.params, l.server, Down(l));
    assert k.toClientData == l.toClientData;
    Up(l).ControlKeepsInv(0);
    assert Up(k) == Up(l) || Up(k) == Up(l).Control(0);
    assert Down(k) == Down(l);
    assert HandedOver(k) == HandedOver(l);
  }

  // A repeated connection request is acknowledged once more, under an id that the client ignores.
  function ConnectAgain(l: Link): Link {
    l.(toClientAcks := l.toClientAcks + {l.isn})
  }

  lemma ConnectAgainKeepsInv(l: Link)
    requires Inv(l)
    ensures Inv(ConnectAgain(l))
  {
    hide Ascending, ClientReceives, Buffered, ServerSends;
    var k := ConnectAgain(l);
    Up(l).ControlKeepsInv(l.isn);
    assert Up(k) == Up(l).Control(l.isn);
    assert Down(k) == Down(l);
  }

  // ---------- What the invariant is worth ----------

  // In both directions, what was read is the beginning of what was written, in order.
  lemma ReadsAreWrites(l: Link)
    requires Inv(l)
    ensures l.inbox <= l.clientWrote
    ensures l.clientRead <= l.serverWrote
  {
  }

  // Once the client has nothing queued or unacknowledged, the server has everything it wrote, in order.
  lemma ClientQuietMeansDelivered(l: Link)
    requires Inv(l) && l.client.unsentMessages == [] && l.client.window == []
    ensures l.inbox == l.clientWrote
  {
    assert l.server.readCounter !in l.server.dup by {
      assert l.server.readCounter !in SeqNums(l.server.outOfOrder);
    }
    Up(l).AllDelivered();
  }

  ghost predicate Covers(s: seq<Message>, lo: int, hi: int) {
    forall n :: n in SeqNums(s) <==> lo <= n < hi
  }

  lemma WithoutFirst(s: seq<Message>, lo: int, hi: int)
    requires Ascending(s) && Covers(s, lo, hi) && s != []
    ensures s[0].seqNum == lo < hi && Covers(s[1..], lo + 1, hi)
  {
    assert s[0].seqNum in SeqNums(s);
    assert lo in SeqNums(s);
    var j :| 0 <= j < |s| && s[j].seqNum == lo;
    assert s == [s[0]] + s[1..];
    SeqNumsConcat([s[0]], s[1..]);
    assert SeqNums([s[0]]) == {lo};
    assert forall m | m in s[1..] :: m.seqNum > lo;
  }

  lemma {:induction false} AscendingInterval(s: seq<Message>, lo: int, hi: int)
    requires Ascending(s) && lo <= hi && Covers(s, lo, hi)
    ensures |s| == hi - lo
    ensures forall i | 0 <= i < |s| :: s[i].seqNum == lo + i
    decreases |s|
  {
    if s == [] {
      assert lo !in SeqNums(s);
    } else {
      WithoutFirst(s, lo, hi);
      AscendingInterval(s[1..], lo + 1, hi);
      assert forall i | 1 <= i < |s| :: s[i] == s[1..][i - 1];
    }
  }

  // The client's record then holds exactly the numbers from its counter to the last one written.
  lemma RecordCoversRest(c: C.ClientState, s: Stream, handedOver: seq<Payload>)
    requires s.Inv() && ClientReceives(c, s, handedOver) && s.waiting == {} && s.pending == {}
    ensures var sorted := SortBySeqNum(c.receivedRecord);
            Ascending(sorted) && Covers(sorted, c.receiveSeqNum, s.first + |s.written|)
  {
    s.NothingLost();
    SortKeeps(c.receivedRecord);
    forall n
      ensures n in SeqNums(c.receivedRecord) <==> c.receiveSeqNum <= n < s.first + |s.written|
    {
      assert n in SeqNums(c.receivedRecord) ==> n in s.held;
      assert c.receiveSeqNum <= n < s.first + |s.written| ==> n in s.held;
    }
  }

  lemma RecordIsRest(c: C.ClientState, s: Stream, handedOver: seq<Payload>)
    requires s.Inv() && ClientReceives(c, s, handedOver) && s.waiting == {} && s.pending == {}
    ensures handedOver + Payloads(SortBySeqNum(c.receivedRecord)) == s.written
  {
    hide SortBySeqNum, ClientHeld;
    var sorted := SortBySeqNum(c.receivedRecord);
    RecordCoversRest(c, s, handedOver);
    AscendingInterval(sorted, c.receiveSeqNum, s.first + |s.written|);
    SortKeeps(c.receivedRecord);
    forall i | 0 <= i < |sorted|
      ensures sorted[i].payload == s.written[s.delivered + i]
    {
      assert sorted[i] in c.receivedRecord;
      assert s.Genuine(sorted[i]);
    }
  }

  /** Once the server has nothing queued or unacknowledged for a connection, what the client has read and what its
      record holds, put in order, is everything the server wrote. */
  lemma ServerQuietMeansHeld(l: Link)
    requires Inv(l) && l.server.queue == [] && l.server.window == []
    ensures HandedOver(l) + Payloads(SortBySeqNum(l.client.receivedRecord)) == l.serverWrote
  {
    RecordIsRest(l.client, Down(l), HandedOver(l));
  }

  // With nothing recorded or in the channel, Read has returned every message the client ever acknowledged.
  lemma EmptyRecordLosesNothing(l: Link)
    requires Inv(l) && l.client.receivedRecord == [] && l.client.readPayloads.None?
    ensures l.clientRead <= l.serverWrote
    ensures forall n | n in l.toServerAcks && n > l.isn :: n <= l.isn + |l.clientRead|
  {
  }
}
