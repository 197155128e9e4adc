/**
 The three reorder buffers of the repository fed with the same arrivals: the client's record, the server's list and the
 reference link's map. Messages of one sender arrive in any order, any number of times or never, and the readers read
 whenever they like.
 */
module ThreeBuffers {
  import opened Messages
  import opened Streams
  import C = ClientSide
  import L = Links
  import P = ReferenceRuns
  import R = Reference
  import S = ServerSide

  // What the sender wrote
  datatype Line = Line(connId: int, first: int, written: seq<Payload>)

  datatype Buffers = Buffers(
    client: C.ClientState,
    clientRead: seq<Payload>,   // returned by the client's Read
    server: S.ServerConn,
    inbox: seq<Payload>,        // appended to the server's read list
    link: R.RefState,
    linkRead: seq<Payload>)     // returned by the reference link's read

  datatype Event =
    | Arrives(message: Message)
    | ReadRequest
    | Take
    | LinkRead

  function ClientOut(x: Buffers): seq<Payload> {
    x.clientRead + if x.client.readPayloads.Some? then [x.client.readPayloads.value] else []
  }

  function LinkOut(x: Buffers): seq<Payload> {
    x.linkRead + x.link.readQueue
  }

  // Every message of the line
  function All(line: Line): set<Message> {
    set i | 0 <= i < |line.written| :: Message(line.connId, line.first + i, line.written[i])
  }

  ghost predicate IsStart(line: Line, x: Buffers) {
    && 1 <= line.first && x.clientRead == x.linkRead == x.inbox == []
    && x.client == C.Established(x.client.params, line.connId, line.first - 1)
    && x.server == S.Opened(x.server.addr, line.first - 1)
    && x.link == R.Established(x.link.params, line.connId, line.first - 1)
  }

  ghost predicate Enabled(line: Line, x: Buffers, e: Event) {
    match e
    case Arrives(m) => m in All(line)
    case ReadRequest => true
    case Take => x.client.readPayloads.Some?
    case LinkRead => x.link.readQueue != []
  }

  function After(line: Line, x: Buffers, e: Event): Buffers
    requires Enabled(line, x, e)
  {
    match e
    case Arrives(m) =>
      x.(client := C.DataArm(x.client, m),
         server := S.DataArm(x.server, m), inbox := x.inbox + Payloads(S.Pushed(x.server, m)),
         link := R.OnData(x.link, m))
    case ReadRequest => x.(client := C.ToRead(x.client))
    case Take => x.(client := C.Taken(x.client), clientRead := x.clientRead + [x.client.readPayloads.value])
    case LinkRead =>
      x.(link := x.link.(readQueue := x.link.readQueue[1..]), linkRead := x.linkRead + [x.link.readQueue[0]])
  }

  ghost predicate IsRun(line: Line, states: seq<Buffers>, events: seq<Event>) {
    && |states| == |events| + 1
    && IsStart(line, states[0])
    && forall i | 0 <= i < |events| ::
         Enabled(line, states[i], events[i]) && states[i + 1] == After(line, states[i], events[i])
  }

  // ---------- The stream that a buffer sees ----------

  function Seen(line: Line, held: set<int>, delivered: nat): Stream {
    Stream(line.connId, line.first, line.written, L.Numbers(line.first, line.first + |line.written|), {}, All(line),
           held, held, delivered)
  }

  function ServerSees(line: Line, c: S.ServerConn, inbox: seq<Payload>): Stream {
    Seen(line, c.dup, |inbox|)
  }

  function ClientSees(line: Line, c: C.ClientState, out: seq<Payload>): Stream {
    Seen(line, L.ClientHeld(line.first, c), |out|)
  }

  function LinkSees(line: Line, c: R.RefState, out: seq<Payload>): Stream {
    Seen(line, P.Held(line.first, c), |out|)
  }

  ghost predicate ServerOk(line: Line, c: S.ServerConn, inbox: seq<Payload>) {
    ServerSees(line, c, inbox).Inv() && L.ServerReceives(c, ServerSees(line, c, inbox), inbox)
  }

  ghost predicate ClientOk(line: Line, c: C.ClientState, out: seq<Payload>) {
    ClientSees(line, c, out).Inv() && L.ClientReceives(c, ClientSees(line, c, out), out)
  }

  ghost predicate LinkOk(line: Line, c: R.RefState, out: seq<Payload>) {
    LinkSees(line, c, out).Inv() && P.Receiver(c, LinkSees(line, c, out), out)
  }

  // The server's list and the client's record accept the same numbers, the reference's map no others.
  ghost predicate Inv(line: Line, x: Buffers) {
    && ServerOk(line, x.server, x.inbox)
    && ClientOk(line, x.client, ClientOut(x))
    && LinkOk(line, x.link, LinkOut(x))
    && L.ClientHeld(line.first, x.client) == x.server.dup
    && P.Held(line.first, x.link) <= x.server.dup
  }

  lemma NothingSeen(line: Line)
    ensures Seen(line, {}, 0).Inv()
  {
  }

  lemma StartInv(line: Line, x: Buffers)
    requires IsStart(line, x)
    ensures Inv(line, x) && x.server.dup == {} && P.Held(line.first, x.link) == {}
  {
    hide Stream.Inv, All;
    NothingSeen(line);
    assert ServerSees(line, x.server, []) == Seen(line, {}, 0);
    assert ClientSees(line, x.client, []) == Seen(line, {}, 0);
    assert LinkSees(line, x.link, []) == Seen(line, {}, 0);
  }

  // ---------- The server's list ----------

  lemma ServerArrives(line: Line, c: S.ServerConn, inbox: seq<Payload>, m: Message)
    requires ServerOk(line, c, inbox) && m in All(line)
    ensures ServerOk(line, S.DataArm(c, m), inbox + Payloads(S.Pushed(c, m)))
    ensures S.DataArm(c, m).dup == c.dup + {m.seqNum}
  {
    hide Stream.Inv, L.Buffered, S.Run, S.Rest, All;
    var s := ServerSees(line, c, inbox);
    if m.seqNum in c.dup {
      assert c.dup + {m.seqNum} == c.dup;
      assert inbox + [] == inbox;
    } else if m.seqNum == c.readCounter {
      L.PushedRun(c, s, inbox, m);
      var t := L.RunIsDelivered(s, m, |S.Pushed(c, m)|);
      L.NextIsReceived(c, s, inbox, m, t);
    } else {
      L.EarlyIsReceived(c, s, inbox, m);
      assert inbox + [] == inbox;
    }
  }

  // ---------- The client's record ----------

  // What manageReceived moves to the channel
  function Moved(c: C.ClientState): seq<Payload> {
    if L.NextIsRecorded(c) then [SortBySeqNum(c.receivedRecord)[0].payload] else []
  }

  lemma ClientToRead(line: Line, c: C.ClientState, out: seq<Payload>)
    requires ClientOk(line, c, out)
    ensures ClientOk(line, C.ToRead(c), out + Moved(c))
    ensures L.ClientHeld(line.first, C.ToRead(c)) == L.ClientHeld(line.first, c)
  {
    hide Stream.Inv, L.ClientHeld, All;
    SortKeeps(c.receivedRecord);
    C.ToReadKeeps(c);
    if L.NextIsRecorded(c) {
      L.NextMovesOn(c, ClientSees(line, c, out), out);
      L.FirstLeavesRecord(line.first, c);
    } else {
      OnlySorted(line, c);
      assert out + [] == out;
    }
  }

  lemma ClientReads(line: Line, x: Buffers)
    requires ClientOk(line, x.client, ClientOut(x))
    ensures var y := x.(client := C.ToRead(x.client));
            ClientOk(line, y.client, ClientOut(y))
            && L.ClientHeld(line.first, y.client) == L.ClientHeld(line.first, x.client)
  {
    hide ClientOk, L.ClientHeld;
    ClientToRead(line, x.client, ClientOut(x));
    assert ClientOut(x.(client := C.ToRead(x.client))) == ClientOut(x) + Moved(x.client);
  }

  lemma ClientTakes(line: Line, x: Buffers)
    requires ClientOk(line, x.client, ClientOut(x)) && x.client.readPayloads.Some?
    ensures var y := After(line, x, Take);
            ClientOk(line, y.client, ClientOut(y))
            && L.ClientHeld(line.first, y.client) == L.ClientHeld(line.first, x.client)
  {
    assert ClientOut(After(line, x, Take)) == ClientOut(x);
  }

  lemma OnlySorted(line: Line, c: C.ClientState)
    requires !L.NextIsRecorded(c)
    ensures L.ClientHeld(line.first, C.ToRead(c)) == L.ClientHeld(line.first, c)
    ensures forall m :: m in C.ToRead(c).receivedRecord <==> m in c.receivedRecord
    ensures C.ToRead(c) == c.(receivedRecord := C.ToRead(c).receivedRecord)
  {
    SortKeeps(c.receivedRecord);
  }

  lemma ClientRecords(line: Line, c: C.ClientState, out: seq<Payload>, m: Message)
    requires ClientOk(line, c, out) && m in All(line)
    ensures ClientOk(line, C.Recorded(c, m), out)
    ensures L.ClientHeld(line.first, C.Recorded(c, m)) == L.ClientHeld(line.first, c) + {m.seqNum}
    ensures C.Recorded(c, m).readPayloads == c.readPayloads
  {
    hide Stream.Inv, L.ClientHeld;
    L.RecordedIsReceived(c, ClientSees(line, c, out), out, m);
    L.RecordedIsHeld(line.first, c, m);
  }

  // ---------- The reference's map ----------

  lemma OnlyHeard(line: Line, c: R.RefState, out: seq<Payload>)
    requires LinkOk(line, c, out)
    ensures LinkOk(line, c.(heard := true), out)
    ensures P.Held(line.first, c.(heard := true)) == P.Held(line.first, c)
  {
  }

  lemma LinkArrives(line: Line, c: R.RefState, read: seq<Payload>, m: Message)
    requires LinkOk(line, c, read + c.readQueue) && m in All(line)
    ensures LinkOk(line, R.OnData(c, m), read + R.OnData(c, m).readQueue)
    ensures P.Held(line.first, R.OnData(c, m))
         == P.Held(line.first, c) + if R.TooFarAhead(c, m) then {} else {m.seqNum}
  {
    hide Stream.Inv, P.Held, All;
    var s := LinkSees(line, c, read + c.readQueue);
    if R.TooFarAhead(c, m) || m.seqNum < c.expected {
      OnlyHeard(line, c, read + c.readQueue);
      if m.seqNum < c.expected {
        P.OldIsHeld(c, s, m, read + c.readQueue);
      }
    } else {
      P.StoredIsHeld(c, s, m, read + c.readQueue);
      var t := P.RunIsDrained(R.Stored(c, m), s.Receive(m.seqNum), read);
    }
  }

  lemma LinkReads(line: Line, x: Buffers)
    requires LinkOk(line, x.link, LinkOut(x)) && x.link.readQueue != []
    ensures var y := After(line, x, LinkRead);
            LinkOk(line, y.link, LinkOut(y)) && P.Held(line.first, y.link) == P.Held(line.first, x.link)
  {
    assert LinkOut(After(line, x, LinkRead)) == LinkOut(x);
  }

  // ---------- Every event ----------

  // The numbers that have arrived
  function Arrived(events: seq<Event>, i: nat): set<int>
    requires i <= |events|
  {
    if i == 0 then {}
    else Arrived(events, i - 1) + if events[i - 1].Arrives? then {events[i - 1].message.seqNum} else {}
  }

  ghost predicate InReach(x: Buffers, e: Event) {
    e.Arrives? ==> !R.TooFarAhead(x.link, e.message)
  }

  lemma EventKeepsInv(line: Line, x: Buffers, e: Event)
    requires Inv(line, x) && Enabled(line, x, e)
    ensures var y := After(line, x, e);
            && Inv(line, y)
            && y.server.dup == x.server.dup + (if e.Arrives? then {e.message.seqNum} else {})
            && (InReach(x, e) && P.Held(line.first, x.link) == x.server.dup ==>
                  P.Held(line.first, y.link) == y.server.dup)
  {
    hide ServerOk, ClientOk, LinkOk, L.ClientHeld, P.Held, All, C.ToRead, C.Recorded, S.DataArm, S.Pushed, R.OnData,
         R.TooFarAhead;
    match e
    case Arrives(m) =>
      ServerArrives(line, x.server, x.inbox, m);
      ClientRecords(line, x.client, ClientOut(x), m);
      ClientReads(line, x.(client := C.Recorded(x.client, m)));
      LinkArrives(line, x.link, x.linkRead, m);
    case ReadRequest => ClientReads(line, x);
    case Take => ClientTakes(line, x);
    case LinkRead => LinkReads(line, x);
  }

  lemma {:induction false} RunKeepsInv(line: Line, states: seq<Buffers>, events: seq<Event>, i: nat)
    requires IsRun(line, states, events) && i < |states|
    ensures Inv(line, states[i]) && states[i].server.dup == Arrived(events, i)
    ensures (forall k | 0 <= k < i :: InReach(states[k], events[k])) ==>
              P.Held(line.first, states[i].link) == Arrived(events, i)
  {
    hide Inv, Enabled, After, InReach, P.Held;
    if i == 0 {
      StartInv(line, states[0]);
    } else {
      RunKeepsInv(line, states, events, i - 1);
      EventKeepsInv(line, states[i - 1], events[i - 1]);
    }
  }

  // ---------- The three compared ----------

  // s is the longest stretch of the line of which every number has arrived.
  ghost predicate IsLongestRun(line: Line, arrived: set<int>, s: seq<Payload>) {
    && s <= line.written
    && (forall n | line.first <= n < line.first + |s| :: n in arrived)
    && line.first + |s| !in arrived
  }

  /** After any sequence of arrivals the server's read list has received exactly the longest stretch that arrived
      without a gap. The client never gets ahead of it, and is behind exactly while its record has the next number (one
      payload at a time goes to its channel). The reference never gets ahead either, and has the very same as long as
      nothing arrived beyond its window. */
  lemma BuffersAgree(line: Line, states: seq<Buffers>, events: seq<Event>, i: nat)
    requires IsRun(line, states, events) && i < |states|
    ensures var x := states[i];
            && IsLongestRun(line, Arrived(events, i), x.inbox)
            && ClientOut(x) <= x.inbox && LinkOut(x) <= x.inbox
            && (line.first + |ClientOut(x)| !in SeqNums(x.client.receivedRecord) <==> ClientOut(x) == x.inbox)
            && ((forall k | 0 <= k < i :: InReach(states[k], events[k])) ==> LinkOut(x) == x.inbox)
  {
    hide IsRun, InReach, All;
    var x := states[i];
    RunKeepsInv(line, states, events, i);
    var s, c, r := ServerSees(line, x.server, x.inbox), ClientSees(line, x.client, ClientOut(x)),
                   LinkSees(line, x.link, LinkOut(x));
    ServerIsMaximal(line, x.server, x.inbox);
    MaximalRun(s, c);
    MaximalRun(s, r);
    P.NextIsMissing(x.link, r, LinkOut(x));
  }

  lemma ServerIsMaximal(line: Line, c: S.ServerConn, inbox: seq<Payload>)
    requires ServerOk(line, c, inbox)
    ensures IsLongestRun(line, c.dup, inbox)
  {
    assert c.readCounter !in SeqNums(c.outOfOrder);
  }
}
