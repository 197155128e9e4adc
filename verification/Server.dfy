/**
 The LSP server's event loop (`server_impl.go`). The program spreads a connection over eight maps keyed by its id
 and one keyed by id and number; here one map holds a record per connection, and `ConnectionTable` shows that the
 program's maps have the same keys. Class `Server` performs the arms in place.
 */
module ServerLoop {
  import opened Messages
  import opened Backoff
  import opened MapLoops
  import opened Sorting
  import opened ServerSide

  datatype ServerState = ServerState(
    params: Params,
    conns: map<int, ServerConn>,
    nextId: int,                       // clientIdCounter
    readList: seq<Message>,
    readMessages: Option<Message>,     // the capacity-1 channel that Read takes from
    droppedId: Option<int>,            // the capacity-1 channel of lost connections
    closeId: int,
    isClosed: bool)

  function Initial(params: Params): ServerState {
    ServerState(params, map[], 1, [], None, None, -1, false)
  }

  // ---------- The arms ----------

  // manageReadList
  function Surfaced(s: ServerState): ServerState {
    if s.readMessages.None? && s.readList != [] then
      s.(readMessages := Some(s.readList[0]), readList := s.readList[1..])
    else
      s
  }

  predicate Idle(c: ServerConn) {
    |c.window| + |c.queue| == 0
  }

  // checkClosed
  predicate AllIdle(s: ServerState) {
    forall c | c in s.conns :: Idle(s.conns[c])
  }

  function Ended(s: ServerState, c: int): ServerState {
    s.(conns := s.conns - {c})
  }

  function OnAck(s: ServerState, c: int, n: int): ServerState {
    if c !in s.conns then s
    else
      var s1 := s.(conns := s.conns[c := AckArm(s.params, s.conns[c], n)]);
      if n in s.conns[c].timers && c == s.closeId && Idle(s1.conns[c]) then Ended(s1, c).(closeId := -1) else s1
  }

  // A pending CloseConn may name a connection that an epoch has ended; ending it again would be a nil dereference.
  predicate CloseIdLive(s: ServerState) {
    s.closeId == -1 || s.closeId in s.conns
  }

  // This arm asks whether the pending CloseConn is complete, whichever connection the acknowledgement names. One that
  // names no live connection leaves an empty window under that id, which nothing but a new connection looks up.
  function OnCAck(s: ServerState, c: int, n: int): ServerState
    requires CloseIdLive(s)
  {
    var s1 := if c in s.conns then s.(conns := s.conns[c := CAckArm(s.params, s.conns[c], n)]) else s;
    if s.closeId != -1 && Idle(s1.conns[s.closeId]) then Ended(s1, s.closeId).(closeId := -1) else s1
  }

  predicate InUseBy(conns: map<int, ServerConn>, a: Addr) {
    exists c | c in conns :: conns[c].addr == a
  }

  // The request is acknowledged with the next unused id in either case.
  function OnConnect(s: ServerState, addr: Addr, isn: int): ServerState {
    if InUseBy(s.conns, addr) then s
    else s.(conns := s.conns[s.nextId := Opened(addr, isn)], nextId := s.nextId + 1)
  }

  // Data for a connection that is gone makes the program write to a nil map, hence the precondition.
  function OnData(s: ServerState, c: int, m: Message): ServerState
    requires c in s.conns
  {
    var s1 := s.(conns := s.conns[c := DataArm(s.conns[c], m)], readList := s.readList + Pushed(s.conns[c], m));
    if m.seqNum in s.conns[c].dup then s1 else Surfaced(s1)
  }

  function OnSend(s: ServerState, c: int, payload: Payload): ServerState {
    if c in s.conns then s.(conns := s.conns[c := SendArm(s.params, c, s.conns[c], payload)]) else s
  }

  // Ending a connection that is gone is a nil dereference.
  function OnCloseConn(s: ServerState, c: int): ServerState
    requires c in s.conns
  {
    if Idle(s.conns[c]) then Ended(s, c) else s.(closeId := c)
  }

  // ---------- The epoch, in its three loops ----------

  predicate Silent(p: Params, readList: seq<Message>, k: int, c: ServerConn) {
    && c.idle + 1 >= p.epochLimit
    && (forall m | m in readList :: m.connId != k)
    && c.outOfOrder == []
  }

  predicate Lost(s: ServerState, k: int) {
    k in s.conns && Silent(s.params, s.readList, k, s.conns[k])
  }

  // The map is iterated in no particular order and the channel has room for one id, so at most one of the lost
  // connections is reported and ended; one is, if the channel was empty.
  predicate MayDrop(s: ServerState, dropped: Option<int>) {
    match dropped
    case None => s.droppedId.Some? || forall k | k in s.conns :: !Lost(s, k)
    case Some(k) => s.droppedId.None? && Lost(s, k)
  }

  function AllAged(conns: map<int, ServerConn>): map<int, ServerConn> {
    map c | c in conns :: Aged(conns[c])
  }

  function AgedOut(s: ServerState, dropped: Option<int>): ServerState {
    match dropped
    case None => s.(conns := AllAged(s.conns))
    case Some(k) => s.(conns := AllAged(s.conns) - {k}, droppedId := dropped)
  }

  function AllHeartbeaten(conns: map<int, ServerConn>): map<int, ServerConn> {
    map c | c in conns :: HeartbeatDone(conns[c])
  }

  function SurvivorsTicked(p: Params, conns: map<int, ServerConn>): map<int, ServerConn> {
    map c | c in conns && !Expired(p, conns[c]) :: Ticked(p, conns[c])
  }

  function Heartbeaten(s: ServerState): ServerState {
    s.(conns := AllHeartbeaten(s.conns))
  }

  function Retransmitted(s: ServerState): ServerState {
    s.(conns := SurvivorsTicked(s.params, s.conns))
  }

  function OnTick(s: ServerState, dropped: Option<int>): ServerState {
    Retransmitted(Heartbeaten(AgedOut(s, dropped)))
  }

  // ---------- Runs of the server ----------

  datatype Event =
    | Ack(connId: int, seqNum: int)
    | CAck(connId: int, seqNum: int)
    | Connect(addr: Addr, isn: int)
    | Data(connId: int, message: Message)
    | ReadRequest
    | Take
    | TakeDropped
    | Send(connId: int, payload: Payload)
    | CloseConn(connId: int)
    | Close
    | Tick(dropped: Option<int>)

  ghost predicate Step(s: ServerState, e: Event, t: ServerState) {
    match e
    case Ack(c, n) => t == OnAck(s, c, n)
    case CAck(c, n) => CloseIdLive(s) && t == OnCAck(s, c, n)
    case Connect(addr, isn) => t == OnConnect(s, addr, isn)
    case Data(c, m) => c in s.conns && t == OnData(s, c, m)
    case ReadRequest => t == Surfaced(s)
    case Take => s.readMessages.Some? && t == s.(readMessages := None)
    case TakeDropped => s.droppedId.Some? && t == s.(droppedId := None)
    case Send(c, p) => t == OnSend(s, c, p)
    case CloseConn(c) => c in s.conns && t == OnCloseConn(s, c)
    case Close => t == s.(isClosed := true)
    case Tick(dropped) => MayDrop(s, dropped) && t == OnTick(s, dropped)
  }

  // Whether the event, which leads to state t, releases a pending Close and ends the loop
  predicate Releases(s: ServerState, e: Event, t: ServerState) {
    && t.isClosed && AllIdle(t)
    && match e
       case Ack(c, n) => c in s.conns && n in s.conns[c].timers
       case CAck(_, _) => true
       case Close => true
       case _ => false
  }

  ghost predicate IsRun(states: seq<ServerState>, events: seq<Event>) {
    && |states| == |events| + 1
    && forall i | 0 <= i < |events| :: Step(states[i], events[i], states[i + 1])
  }

  // Live ids were issued, and live ids and client addresses are one to one.
  ghost predicate TableOk(s: ServerState) {
    && 1 <= s.nextId
    && (forall c | c in s.conns :: 1 <= c < s.nextId)
    && (forall c, d | c in s.conns && d in s.conns && s.conns[c].addr == s.conns[d].addr :: c == d)
  }

  // From one state to a later one: an id that is live in both names the same client, and an id that was issued
  // but is no longer live stays dead.
  ghost predicate TableGrows(s: ServerState, t: ServerState) {
    && s.nextId <= t.nextId
    && (forall c | c in t.conns && c < s.nextId :: c in s.conns && t.conns[c].addr == s.conns[c].addr)
  }

  lemma ConnectKeepsTable(s: ServerState, addr: Addr, isn: int)
    requires TableOk(s)
    ensures TableOk(OnConnect(s, addr, isn)) && TableGrows(s, OnConnect(s, addr, isn))
  {
  }

  lemma StepKeepsTable(s: ServerState, e: Event, t: ServerState)
    requires TableOk(s) && Step(s, e, t)
    ensures TableOk(t) && TableGrows(s, t)
  {
    hide TableOk, TableGrows, SameAddresses, OnAck, OnCAck, OnConnect, OnData, OnSend, OnTick, OnCloseConn;
    match e
    case Connect(addr, isn) => ConnectKeepsTable(s, addr, isn);
    case _ =>
      StepKeepsAddresses(s, e, t);
      SubTable(s, t);
  }

  lemma StepKeepsAddresses(s: ServerState, e: Event, t: ServerState)
    requires Step(s, e, t) && !e.Connect?
    ensures SameAddresses(s, t)
  {
    hide OnAck, OnCAck, OnData, OnSend, OnTick;
    match e
    case Ack(c, n) => AckKeepsAddresses(s, c, n);
    case CAck(c, n) => CAckKeepsAddresses(s, c, n);
    case Tick(dropped) => TickKeepsAddresses(s, dropped);
    case Data(c, m) => DataKeepsAddresses(s, c, m);
    case Send(c, p) => SendKeepsAddresses(s, c, p);
    case _ =>
  }

  ghost predicate SameAddresses(s: ServerState, t: ServerState) {
    t.nextId == s.nextId && forall c | c in t.conns :: c in s.conns && t.conns[c].addr == s.conns[c].addr
  }

  lemma AckKeepsAddresses(s: ServerState, c: int, n: int)
    ensures SameAddresses(s, OnAck(s, c, n))
  {
  }

  lemma CAckKeepsAddresses(s: ServerState, c: int, n: int)
    requires CloseIdLive(s)
    ensures SameAddresses(s, OnCAck(s, c, n))
  {
  }

  lemma DataKeepsAddresses(s: ServerState, c: int, m: Message)
    requires c in s.conns
    ensures SameAddresses(s, OnData(s, c, m))
  {
    hide Run, Rest;
  }

  lemma SendKeepsAddresses(s: ServerState, c: int, payload: Payload)
    ensures SameAddresses(s, OnSend(s, c, payload))
  {
    hide SortBySeqNum;
  }

  lemma TickKeepsAddresses(s: ServerState, dropped: Option<int>)
    ensures SameAddresses(s, OnTick(s, dropped))
  {
  }

  lemma SubTable(s: ServerState, t: ServerState)
    requires TableOk(s) && SameAddresses(s, t)
    ensures TableOk(t) && TableGrows(s, t)
  {
  }

  /** Over every run the table stays well formed, and between any two of its states ids are never reused and never
      change hands. */
  lemma {:induction false} RunKeepsTable(states: seq<ServerState>, events: seq<Event>, i: nat, j: nat)
    requires IsRun(states, events) && states[0] == Initial(states[0].params)
    requires i <= j < |states|
    ensures TableOk(states[i]) && TableOk(states[j]) && TableGrows(states[i], states[j])
    decreases j
  {
    if j == 0 {
    } else if i == j {
      RunKeepsTable(states, events, j - 1, j - 1);
      StepKeepsTable(states[j - 1], events[j - 1], states[j]);
    } else {
      RunKeepsTable(states, events, i, j - 1);
      StepKeepsTable(states[j - 1], events[j - 1], states[j]);
    }
  }

  // ---------- The loops ----------

  lemma {:induction false} ExtendedSnoc(window: seq<Message>, ms: seq<Message>, m: Message)
    ensures Extended(window, ms + [m]) == SortBySeqNum(Extended(window, ms) + [m])
    decreases |ms|
  {
    if ms != [] {
      assert (ms + [m])[1..] == ms[1..] + [m];
      ExtendedSnoc(SortBySeqNum(window + [ms[0]]), ms[1..], m);
    }
  }

  lemma {:induction false} StartedSnoc(timers: map<int, BackOffInfo>, ms: seq<Message>, m: Message)
    ensures Started(timers, ms + [m]) == Started(timers, ms)[m.seqNum := Fresh(m)]
    decreases |ms|
  {
    if ms != [] {
      assert (ms + [m])[1..] == ms[1..] + [m];
      StartedSnoc(timers[ms[0].seqNum := Fresh(ms[0])], ms[1..], m);
    }
  }

  // findElement: takes the message numbered n out of the list
  method FindElement(list: seq<Message>, n: int) returns (element: Option<Message>, rest: seq<Message>)
    ensures element == (if n in SeqNums(list) then Some(list[IndexOf(list, n)]) else None)
    ensures rest == Without(list, n)
  {
    var i := GetIndex(list, n);
    if i == -1 {
      return None, list;
    }
    return Some(list[i]), list[..i] + list[i + 1..];
  }

  lemma RunStep(list: seq<Message>, next: int, run: seq<Message>)
    requires next in SeqNums(list)
    ensures run + Run(list, next) == (run + [list[IndexOf(list, next)]]) + Run(Without(list, next), next + 1)
    ensures |Without(list, next)| < |list|
  {
  }

  // The loop around findElement in the Data arm
  method Drain(list: seq<Message>, next: int) returns (run: seq<Message>, counter: int, rest: seq<Message>)
    ensures run == Run(list, next) && rest == Rest(list, next) && counter == next + |run|
  {
    run, rest, counter := [], list, next;
    while true
      invariant Run(list, next) == run + Run(rest, counter)
      invariant Rest(list, next) == Rest(rest, counter)
      invariant counter == next + |run|
      decreases |rest|
    {
      var element, less := FindElement(rest, counter);
      if element == None {
        break;
      }
      RunStep(rest, counter, run);
      run, rest, counter := run + [element.value], less, counter + 1;
    }
  }

  // The promotion loop of the Ack and CAck arms
  method PromotionLoop(p: Params, window: seq<Message>, queue: seq<Message>, timers: map<int, BackOffInfo>)
    returns (w: seq<Message>, b: map<int, BackOffInfo>, sent: seq<Message>)
    ensures sent == Promotable(p, window, queue)
    ensures w == Extended(window, sent) && b == Started(timers, sent)
  {
    w, b, sent := window, timers, [];
    for i := 0 to |queue|
      invariant Promotable(p, window, queue) == sent + Promotable(p, w, queue[i..])
      invariant w == Extended(window, sent) && b == Started(timers, sent)
    {
      var m := queue[i];
      assert queue[i..][1..] == queue[i + 1..];
      if |w| == 0 || (m.seqNum < w[0].seqNum + p.windowSize && |w| < p.maxUnackedMessages) {
        ExtendedSnoc(window, sent, m);
        StartedSnoc(timers, sent, m);
        sent := sent + [m];
        b := b[m.seqNum := Fresh(m)];
        w := SortBySeqNum(w + [m]);
      }
    }
    assert queue[|queue|..] == [];
  }

  // The loop of the Ack arm that takes the promoted messages out of the queue
  method RemovalLoop(queue: seq<Message>, sent: seq<Message>) returns (q: seq<Message>)
    ensures q == WithoutAll(queue, sent)
  {
    q := queue;
    for i := 0 to |sent|
      invariant WithoutAll(q, sent[i..]) == WithoutAll(queue, sent)
    {
      assert sent[i..][1..] == sent[i + 1..];
      q := RemoveFromSlice(q, sent[i].seqNum);
    }
  }

  // The loop of the CAck arm that drops the timers of the window
  method DropWindowTimers(window: seq<Message>, timers: map<int, BackOffInfo>) returns (b: map<int, BackOffInfo>)
    ensures b == timers - SeqNums(window)
  {
    b := timers;
    for i := 0 to |window|
      invariant b == timers - SeqNums(window[..i])
    {
      assert window[..i + 1] == window[..i] + [window[i]];
      SeqNumsConcat(window[..i], [window[i]]);
      assert SeqNums([window[i]]) == {window[i].seqNum};
      if window[i].seqNum in b {
        b := b - {window[i].seqNum};
      }
    }
    assert window[..|window|] == window;
  }

  // The Ack arm up to the question whether a pending CloseConn is complete
  method AckRow(p: Params, c: ServerConn, n: int) returns (r: ServerConn, known: bool, sent: seq<Message>)
    ensures r == AckArm(p, c, n) && sent == AckSends(p, c, n) && known == (n in c.timers)
  {
    var w := RemoveFromSlice(c.window, n);
    r := c.(idle := 0, window := w);
    known := n in c.timers;
    if !known {
      assert c.timers - {n} == c.timers;
      return r, known, [];
    }
    r := r.(timers := c.timers - {n});
    var b;
    w, b, sent := PromotionLoop(p, r.window, r.queue, r.timers);
    var q := RemovalLoop(r.queue, sent);
    r := r.(window := w, queue := q, timers := b);
  }

  // The CAck arm up to the question whether a pending CloseConn is complete
  method CAckRow(p: Params, c: ServerConn, n: int) returns (r: ServerConn, sent: seq<Message>)
    ensures r == CAckArm(p, c, n) && sent == CAckSends(p, c, n)
  {
    var b := DropWindowTimers(c.window, c.timers);
    var w := RemoveFromSliceCAck(c.window, n);
    w, b, sent := PromotionLoop(p, w, c.queue, b);
    r := c.(idle := 0, window := w, timers := b);
  }

  // The Data arm up to manageReadList
  method DataRow(c: ServerConn, m: Message) returns (r: ServerConn, pushed: seq<Message>)
    ensures r == DataArm(c, m) && pushed == Pushed(c, m)
  {
    r, pushed := c.(idle := 0), [];
    if m.seqNum in c.dup {
      return;
    }
    r := r.(dup := c.dup + {m.seqNum});
    if m.seqNum == c.readCounter {
      var run, counter, rest := Drain(c.outOfOrder, c.readCounter + 1);
      pushed := [m] + run;
      r := r.(readCounter := counter, outOfOrder := rest);
    } else {
      r := r.(outOfOrder := c.outOfOrder + [m]);
    }
  }

  // The arm of a Write, on the record of its connection
  method SendRow(p: Params, connId: int, c: ServerConn, payload: Payload)
    returns (r: ServerConn, sent: seq<Message>)
    ensures r == SendArm(p, connId, c, payload) && sent == SendSends(p, connId, c, payload)
    ensures r.addr == c.addr
  {
    r, sent := c, [];
    var message := Message(connId, c.serverSeq, payload);
    if |c.window| == 0
       || (c.serverSeq < c.window[0].seqNum + p.windowSize && |c.window| < p.maxUnackedMessages) {
      sent := [message];
      r := r.(sent := true, timers := c.timers[c.serverSeq := Fresh(message)],
              window := SortBySeqNum(c.window + [message]));
    } else {
      r := r.(queue := SortBySeqNum(c.queue + [message]));
    }
    r := r.(serverSeq := c.serverSeq + 1);
  }

  // containID
  method ContainId(list: seq<Message>, id: int) returns (found: bool)
    ensures found <==> exists m :: m in list && m.connId == id
  {
    for i := 0 to |list|
      invariant forall j | 0 <= j < i :: list[j].connId != id
    {
      if list[i].connId == id {
        assert list[i] in list;
        return true;
      }
    }
    return false;
  }

  // The retransmission loop over the entries of one connection, which are visited in no particular order. An
  // expired entry ends the connection, and with it the loop over its entries.
  method RetransmitConn(p: Params, c: ServerConn) returns (r: ServerConn, expired: bool, due: set<Message>)
    ensures expired <==> Expired(p, c)
    ensures !expired ==> r == Ticked(p, c) && due == Due(c)
    ensures due <= Due(c)
  {
    hide HalfDone;
    var keys, timers := c.timers.Keys, c.timers;
    ghost var after := Ticked(p, c).timers;
    due, r := {}, c;
    NothingDone(c.timers, after);
    while exists n :: n in keys
      invariant HalfDone(c.timers, timers, keys, after)
      invariant forall n | n in c.timers && n !in keys :: c.timers[n].timer.total != p.epochLimit
      invariant due == set n | n in c.timers && n !in keys && ServerDue(c.timers[n].timer) :: c.timers[n].message
      decreases keys
    {
      var n :| n in keys;
      OneMoreDone(c.timers, timers, keys, after, n);
      keys := keys - {n};
      var entry := timers[n];
      if entry.timer.total == p.epochLimit {
        return c, true, due;
      }
      var timer;
      if entry.timer.running >= entry.timer.current {
        due := due + {entry.message};
        var interval := if entry.timer.current == 0 then 1 else entry.timer.current * 2;
        if interval > p.maxBackOffInterval {
          interval := p.maxBackOffInterval;
        }
        timer := ServerTimer(0, interval, entry.timer.total + 1);
      } else {
        timer := ServerTimer(entry.timer.running + 1, entry.timer.current, entry.timer.total + 1);
      }
      timers := timers[n := entry.(timer := timer)];
    }
    expired := false;
    r := c.(timers := timers);
    AllDone(c.timers, timers, keys, after);
  }

  ghost predicate AddressesInUse(conns: map<int, ServerConn>, inUse: set<Addr>) {
    && (forall c | c in conns :: conns[c].addr in inUse)
    && (forall a | a in inUse :: InUseBy(conns, a))
  }

  lemma AddressKept(conns: map<int, ServerConn>, inUse: set<Addr>, c: int, r: ServerConn)
    requires AddressesInUse(conns, inUse) && c in conns && r.addr == conns[c].addr
    ensures AddressesInUse(conns[c := r], inUse)
  {
    forall a | a in inUse
      ensures InUseBy(conns[c := r], a)
    {
      var d :| d in conns && conns[d].addr == a;
      assert conns[c := r][d].addr == a;
    }
  }

  lemma AddressAdded(conns: map<int, ServerConn>, inUse: set<Addr>, c: int, r: ServerConn)
    requires AddressesInUse(conns, inUse) && c !in conns
    ensures AddressesInUse(conns[c := r], inUse + {r.addr})
  {
    forall a | a in inUse + {r.addr}
      ensures InUseBy(conns[c := r], a)
    {
      if a == r.addr {
        assert conns[c := r][c].addr == a;
      } else {
        var d :| d in conns && conns[d].addr == a;
        assert conns[c := r][d].addr == a;
      }
    }
  }

  lemma AddressRemoved(conns: map<int, ServerConn>, inUse: set<Addr>, c: int)
    requires AddressesInUse(conns, inUse) && c in conns
    requires forall d | d in conns && conns[d].addr == conns[c].addr :: d == c
    ensures AddressesInUse(conns - {c}, inUse - {conns[c].addr})
  {
    forall a | a in inUse - {conns[c].addr}
      ensures InUseBy(conns - {c}, a)
    {
      var d :| d in conns && conns[d].addr == a;
      assert (conns - {c})[d].addr == a;
    }
  }

  // ---------- The loops of an epoch ----------

  // The connection records and the filter for repeated connection requests
  datatype Table = Table(conns: map<int, ServerConn>, inUse: set<Addr>)
  {
    ghost predicate Ok() {
      && AddressesInUse(conns, inUse)
      && forall c, d | c in conns && d in conns && conns[c].addr == conns[d].addr :: c == d
    }
  }

  // An edit of one record that keeps its address
  method Edit(t: Table, c: int, r: ServerConn) returns (u: Table)
    requires t.Ok() && c in t.conns && r.addr == t.conns[c].addr
    ensures u.Ok() && u.conns == t.conns[c := r]
  {
    AddressKept(t.conns, t.inUse, c, r);
    u := t.(conns := t.conns[c := r]);
  }

  // endConnection
  method End(t: Table, c: int) returns (u: Table)
    requires t.Ok() && c in t.conns
    ensures u.Ok() && u.conns == t.conns - {c}
  {
    AddressRemoved(t.conns, t.inUse, c);
    u := Table(t.conns - {c}, t.inUse - {t.conns[c].addr});
  }

  // The Ack arm on the table, with the end of a connection whose CloseConn waited for this acknowledgement
  method AckTable(p: Params, t: Table, c: int, n: int, closeId: int)
    returns (u: Table, known: bool, closed: bool, sent: seq<Message>)
    requires t.Ok() && c in t.conns
    ensures u.Ok() && known == (n in t.conns[c].timers) && sent == AckSends(p, t.conns[c], n)
    ensures var r := AckArm(p, t.conns[c], n);
            && closed == (known && c == closeId && Idle(r))
            && u.conns == if closed then t.conns[c := r] - {c} else t.conns[c := r]
  {
    var r;
    r, known, sent := AckRow(p, t.conns[c], n);
    u := Edit(t, c, r);
    closed := known && c == closeId && |r.window| + |r.queue| == 0;
    if closed {
      u := End(u, c);
    }
  }

  // The CAck arm on the table, with the end of the connection whose CloseConn is pending and now complete
  method CAckTable(p: Params, t: Table, c: int, n: int, closeId: int)
    returns (u: Table, closed: bool, sent: seq<Message>)
    requires t.Ok() && (closeId == -1 || closeId in t.conns)
    ensures u.Ok() && sent == if c in t.conns then CAckSends(p, t.conns[c], n) else []
    ensures var conns := if c in t.conns then t.conns[c := CAckArm(p, t.conns[c], n)] else t.conns;
            && closed == (closeId != -1 && Idle(conns[closeId]))
            && u.conns == if closed then conns - {closeId} else conns
  {
    hide Table.Ok, CAckSends;
    u, sent := t, [];
    if c in t.conns {
      var r;
      r, sent := CAckRow(p, t.conns[c], n);
      u := Edit(t, c, r);
    }
    closed := closeId != -1 && |u.conns[closeId].window| + |u.conns[closeId].queue| == 0;
    if closed {
      u := End(u, closeId);
    }
  }

  lemma LostIsSilent(s: ServerState, k: int)
    requires k in s.conns
    ensures Lost(s, k) <==> Silent(s.params, s.readList, k, s.conns[k])
  {
  }

  method AgeLoop(ghost s: ServerState, t: Table, p: Params, readList: seq<Message>, droppedId: Option<int>)
    returns (u: Table, slot: Option<int>, dropped: Option<int>)
    requires t.Ok() && s.conns == t.conns && s.params == p && s.readList == readList && s.droppedId == droppedId
    ensures u.Ok() && MayDrop(s, dropped)
    ensures u.conns == AgedOut(s, dropped).conns && slot == AgedOut(s, dropped).droppedId
  {
    hide Table.Ok, HalfDone, Lost;
    var keys := t.conns.Keys;
    ghost var after := AllAged(t.conns);
    u, slot, dropped := t, droppedId, None;
    NothingDone(t.conns, after);
    while exists k :: k in keys
      invariant u.Ok() && HalfDone(t.conns, u.conns, keys, after)
      invariant after == AgedOut(s, dropped).conns
      invariant slot == if dropped.Some? then dropped else droppedId
      invariant dropped.Some? ==> droppedId.None? && Lost(s, dropped.value) && dropped.value !in keys
      invariant slot.None? ==> forall k | k in t.conns && k !in keys :: !Lost(s, k)
      decreases keys
    {
      var k :| k in keys;
      OneMoreDone(t.conns, u.conns, keys, after, k);
      keys := keys - {k};
      var c := u.conns[k].(idle := u.conns[k].idle + 1);
      assert c == after[k];
      u := Edit(u, k, c);
      var silent := false;
      if c.idle >= p.epochLimit {
        var listed := ContainId(readList, k);
        silent := !listed && |c.outOfOrder| == 0;
      }
      LostIsSilent(s, k);
      if silent && slot == None {
        OneLessWanted(t.conns, u.conns, keys, after, k);
        after := after - {k};
        slot, dropped := Some(k), Some(k);
        u := End(u, k);
      }
    }
    AllDone(t.conns, u.conns, keys, after);
    assert forall k | k in t.conns :: k !in keys;
  }

  method HeartbeatLoop(t: Table) returns (u: Table, silent: set<int>)
    requires t.Ok()
    ensures u.Ok() && u.conns == AllHeartbeaten(t.conns)
    ensures silent == set c | c in t.conns && !t.conns[c].sent
  {
    hide Table.Ok, HalfDone;
    var keys := t.conns.Keys;
    ghost var after := AllHeartbeaten(t.conns);
    u, silent := t, {};
    NothingDone(t.conns, after);
    while exists k :: k in keys
      invariant u.Ok() && HalfDone(t.conns, u.conns, keys, after)
      invariant silent == set c | c in t.conns && c !in keys && !t.conns[c].sent
      decreases keys
    {
      var k :| k in keys;
      OneMoreDone(t.conns, u.conns, keys, after, k);
      keys := keys - {k};
      if !u.conns[k].sent {
        silent := silent + {k};
      }
      u := Edit(u, k, u.conns[k].(sent := false));
    }
    AllDone(t.conns, u.conns, keys, after);
  }

  // What the retransmission loop sends: everything due on a connection that survives it, and nothing that is not
  // due.
  ghost predicate ResentFrom(p: Params, conns: map<int, ServerConn>, resent: map<int, set<Message>>) {
    && resent.Keys == conns.Keys
    && forall c | c in conns :: ResentOn(p, conns[c], resent[c])
  }

  ghost predicate ResentOn(p: Params, c: ServerConn, resent: set<Message>) {
    resent <= Due(c) && (!Expired(p, c) ==> resent == Due(c))
  }

  method RetransmitLoop(p: Params, t: Table) returns (u: Table, resent: map<int, set<Message>>)
    requires t.Ok()
    ensures u.Ok()
    ensures u.conns == SurvivorsTicked(p, t.conns)
    ensures ResentFrom(p, t.conns, resent)
  {
    hide Table.Ok, HalfDone, Expired, Ticked, ResentOn, Due;
    var keys := t.conns.Keys;
    ghost var after := SurvivorsTicked(p, t.conns);
    u, resent := t, map[];
    NothingDone(t.conns, after);
    while exists k :: k in keys
      invariant u.Ok() && HalfDone(t.conns, u.conns, keys, after)
      invariant resent.Keys == t.conns.Keys - keys
      invariant forall c | c in resent :: ResentOn(p, t.conns[c], resent[c])
      decreases keys
    {
      var k :| k in keys;
      OneMoreDone(t.conns, u.conns, keys, after, k);
      keys := keys - {k};
      var c, expired, due := RetransmitConn(p, u.conns[k]);
      DueIsResent(p, t.conns[k], expired, due);
      resent := resent[k := due];
      if expired {
        u := End(u, k);
      } else {
        TickKeepsAddress(p, t.conns[k]);
        u := Edit(u, k, c);
      }
    }
    AllDone(t.conns, u.conns, keys, after);
  }

  lemma DueIsResent(p: Params, c: ServerConn, expired: bool, due: set<Message>)
    requires (expired <==> Expired(p, c)) && due <= Due(c) && (!expired ==> due == Due(c))
    ensures ResentOn(p, c, due)
  {
  }

  lemma TickKeepsAddress(p: Params, c: ServerConn)
    ensures Ticked(p, c).addr == c.addr
  {
  }

  // ---------- The event loop ----------

  class Server {
    const params: Params
    var conns: map<int, ServerConn>
    var connectionDupMap: set<Addr>
    var clientIdCounter: int
    var readList: seq<Message>
    var readMessages: Option<Message>
    var droppedId: Option<int>
    var closeId: int
    var isClosed: bool

    ghost function State(): ServerState
      reads this
    {
      ServerState(params, conns, clientIdCounter, readList, readMessages, droppedId, closeId, isClosed)
    }

    // The table is well formed and the filter for repeated connection requests holds the addresses in use.
    ghost predicate Valid()
      reads this
    {
      && TableOk(State())
      && AddressesInUse(conns, connectionDupMap)
    }

    constructor (params: Params)
      ensures Valid() && State() == Initial(params)
    {
      this.params := params;
      conns, connectionDupMap, clientIdCounter := map[], {}, 1;
      readList, readMessages, droppedId := [], None, None;
      closeId, isClosed := -1, false;
    }

    method ManageReadList()
      modifies this`readList, this`readMessages
      ensures State() == Surfaced(old(State()))
    {
      if readMessages == None && |readList| > 0 {
        readMessages := Some(readList[0]);
        readList := readList[1..];
      }
    }

    method CheckClosed() returns (cleared: bool)
      ensures cleared == AllIdle(State())
    {
      cleared := true;
      var keys := conns.Keys;
      while exists c :: c in keys
        invariant keys <= conns.Keys
        invariant cleared == forall c | c in conns && c !in keys :: Idle(conns[c])
        decreases keys
      {
        var c :| c in keys;
        keys := keys - {c};
        if |conns[c].window| != 0 || |conns[c].queue| != 0 {
          cleared := false;
        }
      }
    }

    method EndConnection(connId: int)
      requires Valid() && connId in conns
      modifies this`conns, this`connectionDupMap
      ensures Valid() && State() == Ended(old(State()), connId)
    {
      AddressRemoved(conns, connectionDupMap, connId);
      connectionDupMap := connectionDupMap - {conns[connId].addr};
      conns := conns - {connId};
    }

    method HandleAck(connId: int, n: int) returns (sent: seq<Message>, stop: bool)
      requires Valid()
      modifies this`conns, this`connectionDupMap, this`closeId
      ensures Valid() && State() == OnAck(old(State()), connId, n)
      ensures sent == if connId in old(conns) then AckSends(params, old(conns)[connId], n) else []
      ensures stop <==> Releases(old(State()), Ack(connId, n), State())
    {
      hide AckArm, AckSends, Idle;
      sent, stop := [], false;
      if connId !in conns {
        return;
      }
      ghost var s := State();
      var table, known, closed;
      table, known, closed, sent := AckTable(params, Table(conns, connectionDupMap), connId, n, closeId);
      conns, connectionDupMap := table.conns, table.inUse;
      if closed {
        closeId := -1;
      }
      AckKeepsAddresses(s, connId, n);
      SubTable(s, OnAck(s, connId, n));
      if known && isClosed {
        stop := CheckClosed();
      }
    }

    method HandleCAck(connId: int, n: int) returns (sent: seq<Message>, stop: bool)
      requires Valid() && CloseIdLive(State())
      modifies this`conns, this`connectionDupMap, this`closeId
      ensures Valid() && State() == OnCAck(old(State()), connId, n)
      ensures sent == if connId in old(conns) then CAckSends(params, old(conns)[connId], n) else []
      ensures stop <==> Releases(old(State()), CAck(connId, n), State())
    {
      hide CAckArm, CAckSends, Idle;
      ghost var s := State();
      var table, closed;
      table, closed, sent := CAckTable(params, Table(conns, connectionDupMap), connId, n, closeId);
      conns, connectionDupMap := table.conns, table.inUse;
      if closed {
        closeId := -1;
      }
      CAckKeepsAddresses(s, connId, n);
      SubTable(s, OnCAck(s, connId, n));
      stop := false;
      if isClosed {
        stop := CheckClosed();
      }
    }

    method HandleConnect(addr: Addr, isn: int) returns (ackId: int)
      requires Valid()
      modifies this`conns, this`connectionDupMap, this`clientIdCounter
      ensures Valid() && State() == OnConnect(old(State()), addr, isn)
      ensures ackId == old(clientIdCounter)
    {
      ackId := clientIdCounter;
      if addr in connectionDupMap {
        return;
      }
      AddressAdded(conns, connectionDupMap, clientIdCounter, Opened(addr, isn));
      conns := conns[clientIdCounter := Opened(addr, isn)];
      connectionDupMap := connectionDupMap + {addr};
      clientIdCounter := clientIdCounter + 1;
    }

    method HandleData(connId: int, m: Message) returns (ack: int)
      requires Valid() && connId in conns
      modifies this`conns, this`readList, this`readMessages
      ensures Valid() && State() == OnData(old(State()), connId, m)
      ensures ack == m.seqNum
    {
      hide DataArm, Pushed, TableOk, AddressesInUse;
      ack := m.seqNum;
      DataKeepsAddresses(State(), connId, m);
      SubTable(State(), OnData(State(), connId, m));
      var isDuplicate := m.seqNum in conns[connId].dup;
      var c, pushed := DataRow(conns[connId], m);
      AddressKept(conns, connectionDupMap, connId, c);
      conns := conns[connId := c];
      readList := readList + pushed;
      if !isDuplicate {
        ManageReadList();
      }
    }

    method HandleReadRequest()
      modifies this`readList, this`readMessages
      ensures State() == Surfaced(old(State()))
    {
      ManageReadList();
    }

    // Read receives from the channel
    method TakeMessage() returns (m: Message)
      requires readMessages.Some?
      modifies this`readMessages
      ensures m == old(readMessages).value && State() == old(State()).(readMessages := None)
    {
      m := readMessages.value;
      readMessages := None;
    }

    method HandleSend(connId: int, payload: Payload) returns (sent: seq<Message>)
      requires Valid()
      modifies this`conns
      ensures Valid() && State() == OnSend(old(State()), connId, payload)
      ensures sent == if connId in old(conns) then SendSends(params, connId, old(conns)[connId], payload) else []
    {
      hide SendArm, SendSends, TableOk, AddressesInUse;
      sent := [];
      if connId !in conns {
        return;
      }
      SendKeepsAddresses(State(), connId, payload);
      SubTable(State(), OnSend(State(), connId, payload));
      var c;
      c, sent := SendRow(params, connId, conns[connId], payload);
      AddressKept(conns, connectionDupMap, connId, c);
      conns := conns[connId := c];
    }

    method HandleClose() returns (stop: bool)
      modifies this`isClosed
      ensures State() == old(State()).(isClosed := true)
      ensures stop <==> Releases(old(State()), Close, State())
    {
      isClosed := true;
      stop := CheckClosed();
    }

    method HandleCloseConn(connId: int)
      requires Valid() && connId in conns
      modifies this`conns, this`connectionDupMap, this`closeId
      ensures Valid() && State() == OnCloseConn(old(State()), connId)
    {
      if |conns[connId].window| + |conns[connId].queue| == 0 {
        EndConnection(connId);
      } else {
        closeId := connId;
      }
    }

    method HandleTick() returns (dropped: Option<int>, silent: set<int>, resent: map<int, set<Message>>)
      requires Valid()
      modifies this`conns, this`connectionDupMap, this`droppedId
      ensures Valid() && MayDrop(old(State()), dropped) && State() == OnTick(old(State()), dropped)
      ensures var mid := AgedOut(old(State()), dropped);
              && silent == (set c | c in mid.conns && !mid.conns[c].sent)
              && ResentFrom(params, Heartbeaten(mid).conns, resent)
    {
      ghost var s := State();
      var table := Table(conns, connectionDupMap);
      table, droppedId, dropped := AgeLoop(s, table, params, readList, droppedId);
      ghost var mid := AgedOut(s, dropped);
      table, silent := HeartbeatLoop(table);
      table, resent := RetransmitLoop(params, table);
      conns, connectionDupMap := table.conns, table.inUse;
      TickKeepsAddresses(s, dropped);
      SubTable(s, OnTick(s, dropped));
    }
  }
}
