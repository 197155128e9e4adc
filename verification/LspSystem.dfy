/**
 Whole runs of a server with any number of clients over a network that loses, delays, repeats, reorders and damages
 packets. Every event is one arm of one event loop, in any interleaving.
 */
module LspSystem {
  import opened Messages
  import opened DataFilter
  import opened ServerLoop
  import C = ClientSide
  import L = Links
  import R = ServerSchedule
  import S = ServerSide

  // The size of the buffers that both readers receive into: a longer packet never parses.
  const MAX_LENGTH := 2000

  /** `links` has every connection ever established, by its id. A link keeps the last record that the server had for
      it; only for the connections in `srv.conns` is that record the server's current one. */
  datatype System = System(
    srv: ServerState,
    links: map<int, L.Link>,
    pushed: seq<Message>,      // everything ever appended to the read list
    taken: seq<Message>)       // everything returned by the server's Read

  function Start(params: Params): System {
    System(Initial(params), map[], [], [])
  }

  // ---------- Events ----------

  datatype ClientAction =
    | Write(payload: Payload)
    | GetAck(n: int)
    | GetCAck(n: int)
    | GetData(message: Message, fault: Fault, isNumber: bool)
    | ReadRequest
    | Take
    | Tick

  datatype ServerAction =
    | HandleAck(n: int)
    | HandleCAck(n: int)
    | HandleData(message: Message, fault: Fault, isNumber: bool)
    | HandleWrite(payload: Payload)
    | HandleConnect
    | HandleCloseConn

  datatype Event =
    | Establish(addr: S.Addr, isn: int, clientParams: Params)
    | AtClient(connId: int, clientAction: ClientAction)
    | AtServer(connId: int, serverAction: ServerAction)
    | ServerReadRequest
    | ServerTake
    | ServerTakeDropped
    | ServerClose
    | ServerTick(dropped: Option<int>)

  // A packet that was sent and is short enough to be received arrives, possibly damaged on its way.
  function Arriving(m: Message, fault: Fault, isNumber: bool): Option<Message> {
    Accept(Tampered(NewData(m), fault, isNumber))
  }

  /** A cumulative acknowledgement stands for those of all numbers up to its own. An epoch of a client that has lost a
      timer is outside the model: the program stops at it. */
  ghost predicate ClientMay(l: L.Link, a: ClientAction) {
    match a
    case Write(_) => true
    case GetAck(n) => n in l.toClientAcks
    case GetCAck(n) => forall k | l.isn < k <= n :: k in l.toClientAcks
    case GetData(m, _, _) => m in l.toClientData && |m.payload| <= MAX_LENGTH
    case ReadRequest => true
    case Take => l.client.readPayloads.Some?
    case Tick => SeqNums(l.client.window) <= l.client.backOffMap.Keys
  }

  function ClientMoves(l: L.Link, a: ClientAction): L.Link
    requires ClientMay(l, a)
  {
    match a
    case Write(p) => L.ClientWrites(l, p)
    case GetAck(n) => L.ClientGetsAck(l, n)
    case GetCAck(n) => L.ClientGetsCAck(l, n)
    case GetData(m, fault, isNumber) =>
      (match Arriving(m, fault, isNumber)
       case None => l
       case Some(k) => L.ClientGetsData(l, k))
    case ReadRequest => L.ClientReadRequest(l)
    case Take => L.ClientTakes(l)
    case Tick => L.ClientTicks(l)
  }

  // Data and CloseConn for a connection that is gone are outside the model, and so are cumulative acknowledgements
  // while a pending CloseConn names one: the program stops at them.
  ghost predicate ServerMay(w: System, c: int, a: ServerAction)
    requires c in w.links
  {
    match a
    case HandleAck(n) => n in w.links[c].toServerAcks
    case HandleCAck(n) =>
      && CloseIdLive(w.srv)
      && forall k | w.links[c].isn < k <= n :: k in w.links[c].toServerAcks
    case HandleData(m, _, _) => c in w.srv.conns && m in w.links[c].toServerData && |m.payload| <= MAX_LENGTH
    case HandleWrite(_) => true
    case HandleConnect => c in w.srv.conns
    case HandleCloseConn => c in w.srv.conns
  }

  function ServerGetsAck(w: System, c: int, n: int): System
    requires c in w.links
  {
    w.(srv := OnAck(w.srv, c, n),
       links := if c in w.srv.conns then w.links[c := L.ServerGetsAck(w.links[c], n)] else w.links)
  }

  function ServerGetsCAck(w: System, c: int, n: int): System
    requires c in w.links && CloseIdLive(w.srv)
  {
    w.(srv := OnCAck(w.srv, c, n),
       links := if c in w.srv.conns then w.links[c := L.ServerGetsCAck(w.links[c], n)] else w.links)
  }

  function ServerGetsData(w: System, c: int, m: Message): System
    requires c in w.links && c in w.srv.conns
  {
    w.(srv := OnData(w.srv, c, m),
       links := w.links[c := L.ServerGetsData(w.links[c], m)],
       pushed := w.pushed + S.Pushed(w.srv.conns[c], m))
  }

  function ServerSends(w: System, c: int, p: Payload): System
    requires c in w.links
  {
    w.(srv := OnSend(w.srv, c, p),
       links := if c in w.srv.conns then w.links[c := L.ServerWrites(w.links[c], p)] else w.links)
  }

  function ServerMoves(w: System, c: int, a: ServerAction): System
    requires c in w.links && ServerMay(w, c, a)
  {
    match a
    case HandleAck(n) => ServerGetsAck(w, c, n)
    case HandleCAck(n) => ServerGetsCAck(w, c, n)
    case HandleData(m, fault, isNumber) =>
      (match Arriving(m, fault, isNumber)
       case None => w
       case Some(k) => ServerGetsData(w, c, k))
    case HandleWrite(p) => ServerSends(w, c, p)
    case HandleConnect =>
      w.(srv := OnConnect(w.srv, w.srv.conns[c].addr, w.links[c].isn),
         links := w.links[c := L.ConnectAgain(w.links[c])])
    case HandleCloseConn => w.(srv := OnCloseConn(w.srv, c))
  }

  // A link after an epoch of the server: heartbeats go to the connections that had sent nothing, and due messages go
  // out again (for a connection that ends in the middle of this loop, perhaps not all of them).
  function TickedLink(s: ServerState, dropped: Option<int>, c: int, l: L.Link): L.Link {
    var mid := AgedOut(s, dropped).conns;
    if c in mid then
      l.(server := if c in OnTick(s, dropped).conns then OnTick(s, dropped).conns[c] else S.HeartbeatDone(mid[c]),
         toClientAcks := if mid[c].sent then l.toClientAcks else l.toClientAcks + {0},
         toClientData := l.toClientData + S.Due(mid[c]))
    else
      l
  }

  function TickedLinks(s: ServerState, dropped: Option<int>, links: map<int, L.Link>): map<int, L.Link> {
    map c | c in links :: TickedLink(s, dropped, c, links[c])
  }

  function AfterTick(w: System, dropped: Option<int>): System {
    w.(srv := OnTick(w.srv, dropped), links := TickedLinks(w.srv, dropped, w.links))
  }

  ghost predicate Enabled(w: System, e: Event) {
    match e
    case Establish(addr, isn, _) => 0 <= isn && !InUseBy(w.srv.conns, addr)
    case AtClient(c, a) => c in w.links && ClientMay(w.links[c], a)
    case AtServer(c, a) => c in w.links && ServerMay(w, c, a)
    case ServerReadRequest => true
    case ServerTake => w.srv.readMessages.Some?
    case ServerTakeDropped => w.srv.droppedId.Some?
    case ServerClose => true
    case ServerTick(dropped) => MayDrop(w.srv, dropped)
  }

  function After(w: System, e: Event): System
    requires Enabled(w, e)
  {
    match e
    case Establish(addr, isn, clientParams) =>
      w.(srv := OnConnect(w.srv, addr, isn),
         links := w.links[w.srv.nextId := L.Opening(w.srv.nextId, addr, isn, clientParams, w.srv.params)])
    case AtClient(c, a) => w.(links := w.links[c := ClientMoves(w.links[c], a)])
    case AtServer(c, a) => ServerMoves(w, c, a)
    case ServerReadRequest => w.(srv := Surfaced(w.srv))
    case ServerTake => w.(srv := w.srv.(readMessages := None), taken := w.taken + [w.srv.readMessages.value])
    case ServerTakeDropped => w.(srv := w.srv.(droppedId := None))
    case ServerClose => w.(srv := w.srv.(isClosed := true))
    case ServerTick(dropped) => AfterTick(w, dropped)
  }

  ghost predicate IsRun(params: Params, systems: seq<System>, events: seq<Event>) {
    && |systems| == |events| + 1
    && systems[0] == Start(params)
    && forall i | 0 <= i < |events| :: Enabled(systems[i], events[i]) && systems[i + 1] == After(systems[i], events[i])
  }

  // ---------- The messages of one connection ----------

  function Only(s: seq<Message>, c: int): seq<Message> {
    if s == [] then []
    else if s[0].connId == c then [s[0]] + Only(s[1..], c)
    else Only(s[1..], c)
  }

  lemma {:induction false} OnlyConcat(s: seq<Message>, t: seq<Message>, c: int)
    ensures Only(s + t, c) == Only(s, c) + Only(t, c)
  {
    if s == [] {
      assert s + t == t;
    } else {
      assert (s + t)[1..] == s[1..] + t;
      OnlyConcat(s[1..], t, c);
    }
  }

  lemma {:induction false} OnlyOf(s: seq<Message>, c: int, d: int)
    requires forall m | m in s :: m.connId == d
    ensures Only(s, c) == if c == d then s else []
  {
    if s != [] {
      OnlyOf(s[1..], c, d);
    }
  }

  lemma {:induction false} OnlyNone(s: seq<Message>, c: int)
    requires forall m | m in s :: m.connId != c
    ensures Only(s, c) == []
  {
    if s != [] {
      OnlyNone(s[1..], c);
    }
  }

  lemma PayloadsConcat(s: seq<Message>, t: seq<Message>)
    ensures Payloads(s + t) == Payloads(s) + Payloads(t)
  {
  }

  // ---------- The invariant ----------

  // What was pushed but not taken yet
  function Waiting(s: ServerState): seq<Message> {
    (if s.readMessages.Some? then [s.readMessages.value] else []) + s.readList
  }

  ghost predicate LinkOk(srv: ServerState, c: int, l: L.Link) {
    && l.connId == c && c < srv.nextId && L.Inv(l)
    && l.params == srv.params
    && (c in srv.conns ==> l.server == srv.conns[c])
  }

  ghost predicate LinksOk(srv: ServerState, links: map<int, L.Link>) {
    && (forall c | c in srv.conns :: c in links)
    && (forall c | c in links :: LinkOk(srv, c, links[c]))
  }

  ghost predicate InboxOk(pushed: seq<Message>, c: int, l: L.Link) {
    Payloads(Only(pushed, c)) == l.inbox
  }

  ghost predicate PushedOk(w: System) {
    && w.pushed == w.taken + Waiting(w.srv)
    && (forall m | m in w.pushed :: m.connId in w.links)
    && (forall c | c in w.links :: InboxOk(w.pushed, c, w.links[c]))
  }

  ghost predicate Inv(w: System) {
    TableOk(w.srv) && LinksOk(w.srv, w.links) && PushedOk(w)
  }

  // ---------- Steps of one connection ----------

  ghost predicate SameServerSide(l: L.Link, k: L.Link) {
    k.connId == l.connId && k.params == l.params && k.server == l.server && k.inbox == l.inbox
  }

  // The network can only lose what it damages.
  lemma ArrivesAsSent(m: Message, fault: Fault, isNumber: bool)
    requires |m.payload| <= MAX_LENGTH
    ensures Arriving(m, fault, isNumber) == None || Arriving(m, fault, isNumber) == Some(m)
  {
    hide Accept, Tampered;
    TamperingIsLoss(m, fault, isNumber);
  }

  lemma ClientMovesKeep(l: L.Link, a: ClientAction)
    requires L.Inv(l) && ClientMay(l, a)
    ensures L.Inv(ClientMoves(l, a)) && SameServerSide(l, ClientMoves(l, a))
  {
    hide L.Inv, C.SendQueued, C.ToRead, Accept, Tampered;
    match a
    case Write(p) => L.ClientWritesKeepsInv(l, p);
    case GetAck(n) => L.ClientGetsAckKeepsInv(l, n);
    case GetCAck(n) => L.ClientGetsCAckKeepsInv(l, n);
    case GetData(m, fault, isNumber) =>
      ArrivesAsSent(m, fault, isNumber);
      L.ClientGetsDataKeepsInv(l, m);
    case ReadRequest => L.ClientReadRequestKeepsInv(l);
    case Take => L.ClientTakesKeepsInv(l);
    case Tick => L.ClientTicksKeepsInv(l);
  }

  // One link changes, and with it the server's record of it, if it is still live.
  lemma OneLinkChanges(w: System, srv: ServerState, c: int, k: L.Link)
    requires LinksOk(w.srv, w.links) && c in w.links && LinkOk(srv, c, k)
    requires srv.params == w.srv.params && srv.nextId == w.srv.nextId
    requires srv.conns.Keys <= w.srv.conns.Keys
    requires forall d | d in srv.conns && d != c :: srv.conns[d] == w.srv.conns[d]
    ensures LinksOk(srv, w.links[c := k])
  {
    hide L.Inv;
    forall d | d in srv.conns
      ensures d in w.links
    {
      assert d in w.srv.conns.Keys;
    }
    forall d | d in w.links && d != c
      ensures LinkOk(srv, d, w.links[d])
    {
      assert LinkOk(w.srv, d, w.links[d]);
      assert d in srv.conns.Keys ==> d in w.srv.conns.Keys;
    }
  }

  lemma InboxesKept(w: System, srv: ServerState, c: int, k: L.Link)
    requires PushedOk(w) && c in w.links && k.inbox == w.links[c].inbox
    requires Waiting(srv) == Waiting(w.srv)
    ensures PushedOk(w.(srv := srv, links := w.links[c := k]))
  {
  }

  lemma ClientStepKeepsInv(w: System, c: int, a: ClientAction)
    requires Inv(w) && c in w.links && ClientMay(w.links[c], a)
    ensures Inv(w.(links := w.links[c := ClientMoves(w.links[c], a)]))
  {
    hide L.Inv, ClientMay, ClientMoves, Only;
    var k := ClientMoves(w.links[c], a);
    assert LinkOk(w.srv, c, w.links[c]);
    ClientMovesKeep(w.links[c], a);
    OneLinkChanges(w, w.srv, c, k);
    InboxesKept(w, w.srv, c, k);
    assert w.(srv := w.srv, links := w.links[c := k]) == w.(links := w.links[c := k]);
  }

  // ---------- Steps of the server ----------

  lemma AckStepKeepsInv(w: System, c: int, n: int)
    requires Inv(w) && c in w.links && n in w.links[c].toServerAcks
    ensures LinksOk(ServerGetsAck(w, c, n).srv, ServerGetsAck(w, c, n).links) && PushedOk(ServerGetsAck(w, c, n))
  {
    hide L.Inv, Only, S.AckArm, S.AckSends;
    if c in w.srv.conns {
      var k := L.ServerGetsAck(w.links[c], n);
      assert LinkOk(w.srv, c, w.links[c]);
      L.ServerGetsAckKeepsInv(w.links[c], n);
      OneLinkChanges(w, OnAck(w.srv, c, n), c, k);
      InboxesKept(w, OnAck(w.srv, c, n), c, k);
    }
  }

  lemma CAckStepKeepsInv(w: System, c: int, n: int)
    requires Inv(w) && c in w.links && ServerMay(w, c, HandleCAck(n))
    ensures LinksOk(ServerGetsCAck(w, c, n).srv, ServerGetsCAck(w, c, n).links) && PushedOk(ServerGetsCAck(w, c, n))
  {
    hide L.Inv, Only, S.CAckArm, S.CAckSends;
    var k := if c in w.srv.conns then L.ServerGetsCAck(w.links[c], n) else w.links[c];
    assert LinkOk(w.srv, c, w.links[c]);
    L.ServerGetsCAckKeepsInv(w.links[c], n);
    OneLinkChanges(w, OnCAck(w.srv, c, n), c, k);
    InboxesKept(w, OnCAck(w.srv, c, n), c, k);
    assert c !in w.srv.conns ==> w.links[c := k] == w.links;
  }

  lemma SendStepKeepsInv(w: System, c: int, p: Payload)
    requires Inv(w) && c in w.links
    ensures LinksOk(ServerSends(w, c, p).srv, ServerSends(w, c, p).links) && PushedOk(ServerSends(w, c, p))
  {
    hide L.Inv, Only, S.SendArm, S.SendSends;
    if c in w.srv.conns {
      var k := L.ServerWrites(w.links[c], p);
      assert LinkOk(w.srv, c, w.links[c]);
      L.ServerWritesKeepsInv(w.links[c], p);
      OneLinkChanges(w, OnSend(w.srv, c, p), c, k);
      InboxesKept(w, OnSend(w.srv, c, p), c, k);
    }
  }

  lemma WaitingAfterSurfacing(s: ServerState)
    ensures Waiting(Surfaced(s)) == Waiting(s)
  {
  }

  lemma WaitingAfterData(s: ServerState, c: int, m: Message)
    requires c in s.conns
    ensures Waiting(OnData(s, c, m)) == Waiting(s) + S.Pushed(s.conns[c], m)
  {
    hide S.Pushed, S.DataArm;
    var s1 := s.(conns := s.conns[c := S.DataArm(s.conns[c], m)], readList := s.readList + S.Pushed(s.conns[c], m));
    WaitingAfterSurfacing(s1);
  }

  // The messages pushed for connection c join its inbox and no other.
  lemma InboxesGrow(w: System, v: System, c: int, pushed: seq<Message>)
    requires PushedOk(w) && c in w.links
    requires v.links.Keys == w.links.Keys && v.taken == w.taken && v.pushed == w.pushed + pushed
    requires Waiting(v.srv) == Waiting(w.srv) + pushed
    requires forall m | m in pushed :: m.connId == c
    requires v.links[c].inbox == w.links[c].inbox + Payloads(pushed)
    requires forall d | d in w.links && d != c :: v.links[d].inbox == w.links[d].inbox
    ensures PushedOk(v)
  {
    hide Only, Waiting;
    assert w.taken + (Waiting(w.srv) + pushed) == (w.taken + Waiting(w.srv)) + pushed;
    forall m | m in v.pushed
      ensures m.connId in v.links
    {
      assert m.connId in w.links.Keys;
    }
    forall d | d in v.links
      ensures InboxOk(v.pushed, d, v.links[d])
    {
      assert d in w.links.Keys;
      assert InboxOk(w.pushed, d, w.links[d]);
      OnlyConcat(w.pushed, pushed, d);
      OnlyOf(pushed, d, c);
      PayloadsConcat(Only(w.pushed, d), Only(pushed, d));
      assert Payloads([]) == [];
      assert w.links[d].inbox + [] == w.links[d].inbox;
    }
  }

  lemma DataStepKeepsInv(w: System, c: int, m: Message)
    requires Inv(w) && c in w.links && c in w.srv.conns && m in w.links[c].toServerData
    ensures LinksOk(ServerGetsData(w, c, m).srv, ServerGetsData(w, c, m).links) && PushedOk(ServerGetsData(w, c, m))
  {
    hide L.Inv, Only, S.DataArm, S.Pushed;
    var k, v := L.ServerGetsData(w.links[c], m), ServerGetsData(w, c, m);
    assert LinkOk(w.srv, c, w.links[c]);
    L.ServerGetsDataKeepsInv(w.links[c], m);
    OneLinkChanges(w, OnData(w.srv, c, m), c, k);
    WaitingAfterData(w.srv, c, m);
    L.PushedNamesConnection(w.links[c], m);
    InboxesGrow(w, v, c, S.Pushed(w.srv.conns[c], m));
  }

  lemma CloseConnStepKeepsInv(w: System, c: int)
    requires Inv(w) && c in w.links && c in w.srv.conns
    ensures LinksOk(OnCloseConn(w.srv, c), w.links) && PushedOk(w.(srv := OnCloseConn(w.srv, c)))
  {
    hide L.Inv, Only;
    forall d | d in w.links
      ensures LinkOk(OnCloseConn(w.srv, c), d, w.links[d])
    {
      assert LinkOk(w.srv, d, w.links[d]);
    }
  }

  lemma ConnectAgainStepKeepsInv(w: System, c: int)
    requires Inv(w) && c in w.links && c in w.srv.conns
    ensures OnConnect(w.srv, w.srv.conns[c].addr, w.links[c].isn) == w.srv
    ensures LinksOk(w.srv, w.links[c := L.ConnectAgain(w.links[c])])
    ensures PushedOk(w.(links := w.links[c := L.ConnectAgain(w.links[c])]))
  {
    hide L.Inv, Only;
    var k := L.ConnectAgain(w.links[c]);
    assert LinkOk(w.srv, c, w.links[c]);
    L.ConnectAgainKeepsInv(w.links[c]);
    OneLinkChanges(w, w.srv, c, k);
    InboxesKept(w, w.srv, c, k);
    assert w.(srv := w.srv, links := w.links[c := k]) == w.(links := w.links[c := k]);
  }

  lemma ServerMovesKeep(w: System, c: int, a: ServerAction)
    requires Inv(w) && c in w.links && ServerMay(w, c, a)
    ensures LinksOk(ServerMoves(w, c, a).srv, ServerMoves(w, c, a).links) && PushedOk(ServerMoves(w, c, a))
  {
    hide LinksOk, PushedOk, Accept, Tampered, OnAck, OnCAck, OnSend, OnData, OnConnect, OnCloseConn;
    match a
    case HandleAck(n) => AckStepKeepsInv(w, c, n);
    case HandleCAck(n) => CAckStepKeepsInv(w, c, n);
    case HandleData(m, fault, isNumber) =>
      ArrivesAsSent(m, fault, isNumber);
      if Arriving(m, fault, isNumber) == Some(m) {
        DataStepKeepsInv(w, c, m);
      }
    case HandleWrite(p) => SendStepKeepsInv(w, c, p);
    case HandleConnect => ConnectAgainStepKeepsInv(w, c);
    case HandleCloseConn => CloseConnStepKeepsInv(w, c);
  }

  lemma EstablishKeepsInv(w: System, addr: S.Addr, isn: int, clientParams: Params)
    requires Inv(w) && 0 <= isn && !InUseBy(w.srv.conns, addr)
    ensures var v := After(w, Establish(addr, isn, clientParams));
            LinksOk(v.srv, v.links) && PushedOk(v)
  {
    hide L.Inv, Only;
    var v, c := After(w, Establish(addr, isn, clientParams)), w.srv.nextId;
    L.OpeningInv(c, addr, isn, clientParams, w.srv.params);
    forall d | d in v.links
      ensures LinkOk(v.srv, d, v.links[d]) && InboxOk(v.pushed, d, v.links[d])
    {
      if d == c {
        OnlyNone(v.pushed, c);
      } else {
        assert LinkOk(w.srv, d, w.links[d]) && InboxOk(w.pushed, d, w.links[d]);
      }
    }
  }

  // ---------- An epoch of the server ----------

  lemma TickedLinkKeeps(s: ServerState, dropped: Option<int>, c: int, l: L.Link)
    requires LinkOk(s, c, l)
    ensures LinkOk(OnTick(s, dropped), c, TickedLink(s, dropped, c, l))
    ensures TickedLink(s, dropped, c, l).inbox == l.inbox
  {
    hide L.Inv;
    var mid := AgedOut(s, dropped).conns;
    if c in mid {
      assert mid[c] == S.Aged(l.server);
      L.ServerTicksKeepsInv(l, TickedLink(s, dropped, c, l));
    }
  }

  lemma TickStepKeepsInv(w: System, dropped: Option<int>)
    requires Inv(w) && MayDrop(w.srv, dropped)
    ensures LinksOk(AfterTick(w, dropped).srv, AfterTick(w, dropped).links) && PushedOk(AfterTick(w, dropped))
  {
    hide L.Inv, Only, TickedLink, OnTick;
    var v := AfterTick(w, dropped);
    TickKeepsAddresses(w.srv, dropped);
    TickKeepsReadList(w.srv, dropped);
    forall d | d in v.links
      ensures LinkOk(v.srv, d, v.links[d]) && InboxOk(v.pushed, d, v.links[d])
    {
      assert LinkOk(w.srv, d, w.links[d]) && InboxOk(w.pushed, d, w.links[d]);
      TickedLinkKeeps(w.srv, dropped, d, w.links[d]);
    }
  }

  lemma TickKeepsReadList(s: ServerState, dropped: Option<int>)
    ensures Waiting(OnTick(s, dropped)) == Waiting(s)
  {
  }

  // ---------- Every event ----------

  lemma TakeKeepsPushed(w: System)
    requires PushedOk(w) && w.srv.readMessages.Some?
    ensures PushedOk(After(w, ServerTake))
  {
    hide Only;
    var m := w.srv.readMessages.value;
    assert w.taken + ([m] + w.srv.readList) == (w.taken + [m]) + w.srv.readList;
    var v := After(w, ServerTake);
    assert [] + v.srv.readList == v.srv.readList;
    forall d | d in v.links
      ensures InboxOk(v.pushed, d, v.links[d])
    {
      assert InboxOk(w.pushed, d, w.links[d]);
    }
  }

  // The server's table changes nothing that links and inboxes depend on.
  lemma TableKeptKeepsLinks(w: System, srv: ServerState)
    requires LinksOk(w.srv, w.links)
    requires srv.conns == w.srv.conns && srv.params == w.srv.params && srv.nextId == w.srv.nextId
    ensures LinksOk(srv, w.links)
  {
  }

  lemma EventKeepsLinks(w: System, e: Event)
    requires Inv(w) && Enabled(w, e)
    ensures LinksOk(After(w, e).srv, After(w, e).links) && PushedOk(After(w, e))
  {
    hide LinkOk, PushedOk, OnTick, OnConnect, ClientMoves, ServerMoves, TickedLinks;
    match e
    case Establish(addr, isn, clientParams) => EstablishKeepsInv(w, addr, isn, clientParams);
    case AtClient(c, a) => ClientStepKeepsInv(w, c, a);
    case AtServer(c, a) => ServerMovesKeep(w, c, a);
    case ServerTick(dropped) => TickStepKeepsInv(w, dropped);
    case ServerTake =>
      TableKeptKeepsLinks(w, After(w, e).srv);
      TakeKeepsPushed(w);
    case _ =>
      TableKeptKeepsLinks(w, After(w, e).srv);
      WaitingAfterSurfacing(w.srv);
      SameWaitingKeepsPushed(w, After(w, e).srv);
  }

  lemma SameWaitingKeepsPushed(w: System, srv: ServerState)
    requires PushedOk(w) && Waiting(srv) == Waiting(w.srv)
    ensures PushedOk(w.(srv := srv))
  {
  }

  // What an event means for the server alone
  function ServerEvent(w: System, e: Event): Option<ServerLoop.Event>
    requires Enabled(w, e)
  {
    match e
    case Establish(addr, isn, _) => Some(Connect(addr, isn))
    case AtClient(_, _) => None
    case AtServer(c, HandleAck(n)) => Some(Ack(c, n))
    case AtServer(c, HandleCAck(n)) => Some(CAck(c, n))
    case AtServer(c, HandleData(m, fault, isNumber)) =>
      (match Arriving(m, fault, isNumber)
       case None => None
       case Some(k) => Some(Data(c, k)))
    case AtServer(c, HandleWrite(p)) => Some(Send(c, p))
    case AtServer(c, HandleConnect) => Some(Connect(w.srv.conns[c].addr, w.links[c].isn))
    case AtServer(c, HandleCloseConn) => Some(CloseConn(c))
    case ServerReadRequest => Some(ServerLoop.ReadRequest)
    case ServerTake => Some(ServerLoop.Take)
    case ServerTakeDropped => Some(TakeDropped)
    case ServerClose => Some(Close)
    case ServerTick(dropped) => Some(ServerLoop.Tick(dropped))
  }

  // The server inside the system runs the server's own event loop.
  lemma ServerRuns(w: System, e: Event)
    requires Enabled(w, e)
    ensures match ServerEvent(w, e)
            case None => After(w, e).srv == w.srv
            case Some(k) => Step(w.srv, k, After(w, e).srv)
  {
    hide Accept, Tampered, OnAck, OnCAck, OnData, OnSend, OnTick, OnCloseConn, ClientMoves, L.ServerGetsAck,
         L.ServerGetsCAck, L.ServerGetsData;
  }

  lemma EventKeepsTable(w: System, e: Event)
    requires TableOk(w.srv) && Enabled(w, e)
    ensures TableOk(After(w, e).srv)
  {
    hide After, TableOk, ServerEvent, Step;
    ServerRuns(w, e);
    match ServerEvent(w, e)
    case None =>
    case Some(k) => StepKeepsTable(w.srv, k, After(w, e).srv);
  }

  lemma {:induction false} RunKeepsInv(params: Params, systems: seq<System>, events: seq<Event>, i: nat)
    requires IsRun(params, systems, events) && i < |systems|
    ensures Inv(systems[i]) && systems[i].srv.params == params
  {
    hide LinksOk, PushedOk, TableOk, After;
    if i == 0 {
      StartInv(params);
    } else {
      RunKeepsInv(params, systems, events, i - 1);
      EventKeepsLinks(systems[i - 1], events[i - 1]);
      EventKeepsTable(systems[i - 1], events[i - 1]);
      ParamsKept(systems[i - 1], events[i - 1]);
    }
  }

  lemma StartInv(params: Params)
    ensures Inv(Start(params))
  {
  }

  lemma ParamsKept(w: System, e: Event)
    requires Enabled(w, e)
    ensures After(w, e).srv.params == w.srv.params
  {
    hide Accept, Tampered, ClientMoves, L.ServerGetsAck, L.ServerGetsCAck, L.ServerGetsData, TickedLinks;
  }

  // ---------- What every run guarantees ----------

  /** First in, first out, exactly once, in both directions: what the server's Read has returned for a connection is
      the beginning of what its client gave to Write, and what the client's Read has returned is the beginning of what
      the server gave to Write for it. */
  lemma RunsAreFifo(params: Params, systems: seq<System>, events: seq<Event>, i: nat, c: int)
    requires IsRun(params, systems, events) && i < |systems| && c in systems[i].links
    ensures Payloads(Only(systems[i].taken, c)) <= systems[i].links[c].clientWrote
    ensures systems[i].links[c].clientRead <= systems[i].links[c].serverWrote
  {
    var w := systems[i];
    RunKeepsInv(params, systems, events, i);
    assert LinkOk(w.srv, c, w.links[c]) && InboxOk(w.pushed, c, w.links[c]);
    L.ReadsAreWrites(w.links[c]);
    TakenIsPrefix(w, c);
  }

  lemma TakenIsPrefix(w: System, c: int)
    requires w.pushed == w.taken + Waiting(w.srv)
    ensures Payloads(Only(w.pushed, c)) == Payloads(Only(w.taken, c)) + Payloads(Only(Waiting(w.srv), c))
  {
    OnlyConcat(w.taken, Waiting(w.srv), c);
    PayloadsConcat(Only(w.taken, c), Only(Waiting(w.srv), c));
  }

  // Read returns messages of established connections only.
  lemma ReadsNameConnections(params: Params, systems: seq<System>, events: seq<Event>, i: nat, m: Message)
    requires IsRun(params, systems, events) && i < |systems| && m in systems[i].taken
    ensures m.connId in systems[i].links
  {
    RunKeepsInv(params, systems, events, i);
    assert m in systems[i].pushed;
  }

  /** Nothing is lost: once a client has nothing queued and nothing unacknowledged, what the server's Read has returned
      for it together with what still waits to be read is everything it wrote; and once the server has nothing queued
      and nothing unacknowledged for a client, what the client's Read has returned or its channel holds, followed by
      its record in order, is everything that was written to it. */
  lemma NothingIsLost(params: Params, systems: seq<System>, events: seq<Event>, i: nat, c: int)
    requires IsRun(params, systems, events) && i < |systems| && c in systems[i].links
    ensures var w, l := systems[i], systems[i].links[c];
            && (l.client.unsentMessages == [] && l.client.window == [] ==>
                  Payloads(Only(w.taken, c)) + Payloads(Only(Waiting(w.srv), c)) == l.clientWrote)
            && (l.server.queue == [] && l.server.window == [] ==>
                  L.HandedOver(l) + Payloads(SortBySeqNum(l.client.receivedRecord)) == l.serverWrote)
  {
    hide L.Inv, Only, SortBySeqNum;
    var w, l := systems[i], systems[i].links[c];
    RunKeepsInv(params, systems, events, i);
    assert LinkOk(w.srv, c, l) && InboxOk(w.pushed, c, l);
    if l.client.unsentMessages == [] && l.client.window == [] {
      L.ClientQuietMeansDelivered(l);
      TakenIsPrefix(w, c);
    }
    if l.server.queue == [] && l.server.window == [] {
      L.ServerQuietMeansHeld(l);
    }
  }

  // When Close is released, each client still connected has everything that was written to it.
  lemma CloseMeansDelivered(params: Params, systems: seq<System>, events: seq<Event>, i: nat, c: int)
    requires IsRun(params, systems, events) && i < |systems|
    requires AllIdle(systems[i].srv) && c in systems[i].srv.conns
    ensures c in systems[i].links
    ensures var l := systems[i].links[c];
            L.HandedOver(l) + Payloads(SortBySeqNum(l.client.receivedRecord)) == l.serverWrote
  {
    hide L.Inv, Only, SortBySeqNum;
    var w := systems[i];
    RunKeepsInv(params, systems, events, i);
    assert LinkOk(w.srv, c, w.links[c]);
    assert Idle(w.srv.conns[c]);
    NothingIsLost(params, systems, events, i, c);
  }

  // A client that gives up has returned from Read, in order, every message it ever acknowledged.
  lemma GivingUpIsClean(params: Params, systems: seq<System>, events: seq<Event>, i: nat, c: int)
    requires IsRun(params, systems, events) && i < |systems| && c in systems[i].links
    requires C.GivesUp(systems[i].links[c].client)
    ensures var l := systems[i].links[c];
            && l.clientRead <= l.serverWrote
            && forall n | n in l.toServerAcks && n > l.isn :: n <= l.isn + |l.clientRead|
  {
    RunKeepsInv(params, systems, events, i);
    assert LinkOk(systems[i].srv, c, systems[i].links[c]);
    L.EmptyRecordLosesNothing(systems[i].links[c]);
  }

  // Up to state i, the cumulative acknowledgements that the server handled for connection c were in step.
  ghost predicate ServerInStep(systems: seq<System>, events: seq<Event>, c: int, i: nat)
    requires i <= |events| && |systems| == |events| + 1
  {
    forall k | 0 <= k < i && events[k].AtServer? && events[k].connId == c && events[k].serverAction.HandleCAck?
               && c in systems[k].srv.conns ::
      S.CAckInStep(systems[k].srv.conns[c], events[k].serverAction.n)
  }

  lemma {:induction false} RowsStaySound(params: Params, systems: seq<System>, events: seq<Event>, i: nat, c: int)
    requires IsRun(params, systems, events) && i < |systems| && c in systems[i].srv.conns
    requires ServerInStep(systems, events, c, i)
    ensures R.RowOk(params, systems[i].srv.conns[c])
    decreases i
  {
    hide R.RowOk, R.RowAfter, After, Step, LinksOk, PushedOk, Accept, Tampered;
    if i > 0 {
      var w, v, e := systems[i - 1], systems[i], events[i - 1];
      RunKeepsInv(params, systems, events, i - 1);
      ServerRuns(w, e);
      if c in w.srv.conns {
        RowsStaySound(params, systems, events, i - 1, c);
      }
      match ServerEvent(w, e)
      case None =>
      case Some(k) =>
        if c in w.srv.conns {
          R.SurvivorsRow(w.srv, k, v.srv, c);
          R.RowStaysOk(params, c, w.srv.conns[c], k);
        } else {
          R.NewcomersRow(w.srv, k, v.srv, c);
          R.OpenedIsOk(params, k.addr, k.isn);
        }
    }
  }

  /** As long as the cumulative acknowledgements of a live connection were in step, the server's transmit window
      ascends, its timers are exactly its numbers, a message waits only when the window is full, and with proper
      parameters both limits hold. */
  lemma WindowsAreSound(params: Params, systems: seq<System>, events: seq<Event>, i: nat, c: int)
    requires IsRun(params, systems, events) && i < |systems| && c in systems[i].srv.conns
    requires ServerInStep(systems, events, c, i)
    ensures var r := systems[i].srv.conns[c];
            && Ascending(r.window + r.queue) && r.timers.Keys == SeqNums(r.window)
            && (r.queue != [] ==>
                  && r.window != []
                  && (|| r.queue[0].seqNum >= r.window[0].seqNum + params.windowSize
                      || |r.window| >= params.maxUnackedMessages))
            && (params.windowSize >= 1 && params.maxUnackedMessages >= 1 ==>
                  && |r.window| <= params.maxUnackedMessages
                  && (r.window != [] ==> r.window[|r.window| - 1].seqNum < r.window[0].seqNum + params.windowSize))
  {
    hide IsRun, ServerInStep, Ascending;
    RowsStaySound(params, systems, events, i, c);
  }

  // Up to state i, the cumulative acknowledgements that client c handled were in step.
  ghost predicate ClientInStep(systems: seq<System>, events: seq<Event>, c: int, i: nat)
    requires i <= |events| && |systems| == |events| + 1
  {
    forall k | 0 <= k < i && events[k].AtClient? && events[k].connId == c && events[k].clientAction.GetCAck?
               && c in systems[k].links ::
      C.CAckCovers(systems[k].links[c].client, events[k].clientAction.n)
  }

  lemma OtherClientsKept(w: System, e: Event, c: int)
    requires Enabled(w, e) && c in w.links && (e.AtClient? ==> e.connId != c) && (e.Establish? ==> c != w.srv.nextId)
    ensures c in After(w, e).links && After(w, e).links[c].client == w.links[c].client
  {
    hide Accept, Tampered, ClientMoves, OnAck, OnCAck, OnData, OnSend, OnTick, OnConnect, OnCloseConn;
  }

  lemma ReceivingKeepsSender(l: L.Link, a: ClientAction)
    requires ClientMay(l, a) && (a.GetData? || a.ReadRequest? || a.Take?) && C.SenderOk(l.client)
    ensures C.SenderOk(ClientMoves(l, a).client)
  {
    hide Accept, Tampered, C.SenderOk, SortBySeqNum;
    C.ReceivingKeepsSender(l.client, ClientMoves(l, a).client);
  }

  lemma ClientMovesKeepSender(l: L.Link, a: ClientAction)
    requires ClientMay(l, a) && C.SenderOk(l.client) && (a.GetCAck? ==> C.CAckCovers(l.client, a.n))
    ensures C.SenderOk(ClientMoves(l, a).client)
  {
    hide Accept, Tampered, C.SenderOk, C.CAckCovers, C.WriteArm, C.AckArm, C.CAckArm, C.TickArm, C.DataArm, C.ToRead;
    match a
    case Write(p) => C.WriteKeepsSender(l.client, p);
    case GetAck(n) => C.AckKeepsSender(l.client, n);
    case GetCAck(n) => C.CAckKeepsSenderIff(l.client, n);
    case Tick => C.TickKeepsSender(l.client);
    case _ => ReceivingKeepsSender(l, a);
  }

  lemma OpeningIsSound(w: System, e: Event)
    requires Enabled(w, e) && e.Establish?
    ensures w.srv.nextId in After(w, e).links && C.SenderOk(After(w, e).links[w.srv.nextId].client)
  {
  }

  lemma {:induction false} ClientsStaySound(params: Params, systems: seq<System>, events: seq<Event>, i: nat, c: int)
    requires IsRun(params, systems, events) && i < |systems| && c in systems[i].links
    requires ClientInStep(systems, events, c, i)
    ensures C.SenderOk(systems[i].links[c].client)
    decreases i
  {
    hide C.SenderOk, C.CAckCovers, LinksOk, PushedOk, ClientMay, ClientMoves, ServerMoves, ServerMay, TickedLinks,
         OnTick, OnConnect, Surfaced;
    if i > 0 {
      var w, e := systems[i - 1], events[i - 1];
      LinksGrow(w, e, c);
      if e.Establish? && c == w.srv.nextId {
        OpeningIsSound(w, e);
      } else {
        ClientsStaySound(params, systems, events, i - 1, c);
        if e.AtClient? && e.connId == c {
          ClientMovesKeepSender(w.links[c], e.clientAction);
        } else {
          OtherClientsKept(w, e, c);
        }
      }
    }
  }

  lemma LinksGrow(w: System, e: Event, c: int)
    requires Enabled(w, e) && c in After(w, e).links
    ensures c in w.links || (e.Establish? && c == w.srv.nextId)
  {
    hide Accept, Tampered, ClientMoves, OnAck, OnCAck, OnData, OnSend, OnTick, OnConnect, OnCloseConn;
  }

  /** As long as the cumulative acknowledgements of a client were in step, it never looks up a timer that is gone: its
      epoch is possible in every reachable state. */
  lemma ClientTickIsPossible(params: Params, systems: seq<System>, events: seq<Event>, i: nat, c: int)
    requires IsRun(params, systems, events) && i < |systems| && c in systems[i].links
    requires ClientInStep(systems, events, c, i)
    ensures Enabled(systems[i], AtClient(c, ClientAction.Tick))
    ensures var r := systems[i].links[c].client;
            Ascending(r.window + r.unsentMessages) && r.backOffMap.Keys == SeqNums(r.window)
  {
    hide After, IsRun, ClientInStep;
    ClientsStaySound(params, systems, events, i, c);
  }

  // Ids are never reused and never change hands, from any state of a run to any later one.
  lemma {:induction false} RunKeepsIds(params: Params, systems: seq<System>, events: seq<Event>, i: nat, j: nat)
    requires IsRun(params, systems, events) && i <= j < |systems|
    ensures TableGrows(systems[i].srv, systems[j].srv)
    decreases j
  {
    hide LinksOk, PushedOk, After, ServerEvent, Step;
    RunKeepsInv(params, systems, events, i);
    if i < j {
      RunKeepsIds(params, systems, events, i, j - 1);
      RunKeepsInv(params, systems, events, j - 1);
      ServerRuns(systems[j - 1], events[j - 1]);
      match ServerEvent(systems[j - 1], events[j - 1])
      case None =>
      case Some(k) => StepKeepsTable(systems[j - 1].srv, k, systems[j].srv);
    }
  }
}
