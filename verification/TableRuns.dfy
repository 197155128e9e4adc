/**
 The server's maps over whole runs, including the epoch, whose loops end connections while they iterate. At every
 moment the maps are one table, and the table is the one that `ServerLoop` keeps as one map of records.
 */
module TableRuns {
  import opened Messages
  import opened Backoff
  import opened MapLoops
  import opened ConnectionTable
  import S = ServerSide
  import Loop = ServerLoop

  // ---------- The first two loops of an epoch ----------

  function AgedAll(t: Maps): Maps {
    t.(idleEpochElapsed := map c | c in t.idleEpochElapsed :: t.idleEpochElapsed[c] + 1)
  }

  function HeartbeatenAll(t: Maps): Maps {
    t.(isMessageSent := map c | c in t.isMessageSent :: false)
  }

  // Neither loop touches a map that Coherent looks into further than its keys.
  lemma SameOtherwise(t: Maps, u: Maps)
    requires Coherent(t) && SameKeys(u)
    requires u == t.(idleEpochElapsed := u.idleEpochElapsed, isMessageSent := u.isMessageSent)
    ensures Coherent(u)
  {
    hide TimersOf, Loop.Table.Ok, Rows, NamesOwner;
    SameAddresses(t, u);
  }

  lemma AgedKeys(t: Maps)
    requires SameKeys(t)
    ensures SameKeys(AgedAll(t)) && SameKeys(HeartbeatenAll(t))
  {
  }

  lemma AgedRow(t: Maps, c: int)
    requires SameKeys(t) && SameKeys(AgedAll(t)) && SameKeys(HeartbeatenAll(t)) && c in t.addrAndSeqNum
    ensures Row(AgedAll(t), c) == S.Aged(Row(t, c)) && Row(HeartbeatenAll(t), c) == S.HeartbeatDone(Row(t, c))
  {
    hide TimersOf;
  }

  lemma AgedRows(t: Maps)
    requires Coherent(t)
    ensures Coherent(AgedAll(t)) && Rows(AgedAll(t)) == Loop.AllAged(Rows(t))
    ensures Coherent(HeartbeatenAll(t)) && Rows(HeartbeatenAll(t)) == Loop.AllHeartbeaten(Rows(t))
  {
    hide Coherent, SameKeys, Rows, Loop.AllAged, Loop.AllHeartbeaten;
    SameKeysOf(t);
    AgedKeys(t);
    SameOtherwise(t, AgedAll(t));
    SameOtherwise(t, HeartbeatenAll(t));
    AgedEach(t);
    HeartbeatenEach(t);
  }

  lemma AgedEach(t: Maps)
    requires SameKeys(t) && SameKeys(AgedAll(t)) && SameKeys(HeartbeatenAll(t))
    ensures Rows(AgedAll(t)) == Loop.AllAged(Rows(t))
  {
    hide SameKeys, Row;
    forall c | c in t.addrAndSeqNum
      ensures Row(AgedAll(t), c) == S.Aged(Row(t, c))
    {
      AgedRow(t, c);
    }
    MapsEqual(Rows(AgedAll(t)), Loop.AllAged(Rows(t)));
  }

  lemma HeartbeatenEach(t: Maps)
    requires SameKeys(t) && SameKeys(AgedAll(t)) && SameKeys(HeartbeatenAll(t))
    ensures Rows(HeartbeatenAll(t)) == Loop.AllHeartbeaten(Rows(t))
  {
    hide SameKeys, Row;
    forall c | c in t.addrAndSeqNum
      ensures Row(HeartbeatenAll(t), c) == S.HeartbeatDone(Row(t, c))
    {
      AgedRow(t, c);
    }
    MapsEqual(Rows(HeartbeatenAll(t)), Loop.AllHeartbeaten(Rows(t)));
  }

  // The filter for repeated requests depends on the addresses only.
  lemma SameAddresses(t: Maps, u: Maps)
    requires SameKeys(t) && SameKeys(u) && u.addrAndSeqNum == t.addrAndSeqNum
    requires u.connectionDupMap == t.connectionDupMap && Loop.Table(Rows(t), t.connectionDupMap).Ok()
    ensures Loop.Table(Rows(u), u.connectionDupMap).Ok()
  {
    hide SameKeys, Rows, Loop.Table.Ok;
    RowAddresses(t);
    RowAddresses(u);
    AddressesDecide(Rows(t), Rows(u), t.connectionDupMap);
  }

  lemma RowAddresses(t: Maps)
    requires SameKeys(t)
    ensures Rows(t).Keys == t.addrAndSeqNum.Keys
    ensures forall c | c in Rows(t) :: Rows(t)[c].addr == t.addrAndSeqNum[c].packetAddr
  {
    hide TimersOf;
    RowsKeys(t);
  }

  lemma AddressesDecide(a: map<int, S.ServerConn>, b: map<int, S.ServerConn>, inUse: set<S.Addr>)
    requires Loop.Table(a, inUse).Ok() && a.Keys == b.Keys && forall c | c in a :: a[c].addr == b[c].addr
    ensures Loop.Table(b, inUse).Ok()
  {
    forall x | x in inUse
      ensures Loop.InUseBy(b, x)
    {
      var c :| c in a && a[c].addr == x;
      assert c in b.Keys && b[c].addr == x;
    }
    assert forall c | c in b :: c in a.Keys;
  }

  // ---------- The retransmission loop ----------

  function BackoffStep(p: Params, t: Maps, id: MessageId): Maps
    requires id in t.messageBackoff && id.connId in t.addrAndSeqNum
  {
    var v := t.messageBackoff[id];
    if v.timer.total == p.epochLimit then Ended(t, id.connId)
    else SetTimer(t, id.connId, id.seqNum, S.BackOffInfo(ServerTick(v.timer, p.maxBackOffInterval), v.message))
  }

  /** The map is iterated in some order; entries deleted before their turn, because their connection ended, are
      skipped. In coherent maps the entries that are left have a connection. */
  function BackoffLoop(p: Params, t: Maps, order: seq<MessageId>): Maps
    decreases |order|
  {
    if order == [] then t
    else if order[0] in t.messageBackoff && order[0].connId in t.addrAndSeqNum then
      BackoffLoop(p, BackoffStep(p, t, order[0]), order[1..])
    else BackoffLoop(p, t, order[1..])
  }

  function Visited(order: seq<MessageId>, c: int): set<int> {
    set id | id in order && id.connId == c :: id.seqNum
  }

  ghost predicate ExpiredSome(p: Params, r: S.ServerConn, ns: set<int>) {
    exists n | n in r.timers && n in ns :: r.timers[n].timer.total == p.epochLimit
  }

  function TickedSome(p: Params, r: S.ServerConn, ns: set<int>): S.ServerConn {
    r.(timers := map n | n in r.timers :: if n in ns then TickedInfo(p, r.timers[n]) else r.timers[n])
  }

  function TickedInfo(p: Params, v: S.BackOffInfo): S.BackOffInfo {
    S.BackOffInfo(ServerTick(v.timer, p.maxBackOffInterval), v.message)
  }

  // The table after the entries of the order have had their turn
  ghost predicate AfterVisits(p: Params, before: map<int, S.ServerConn>, order: seq<MessageId>,
                              after: map<int, S.ServerConn>) {
    && (forall c :: c in after <==> c in before && !ExpiredSome(p, before[c], Visited(order, c)))
    && (forall c | c in after :: after[c] == TickedSome(p, before[c], Visited(order, c)))
  }

  ghost predicate Distinct(order: seq<MessageId>) {
    forall i, j | 0 <= i < j < |order| :: order[i] != order[j]
  }

  lemma VisitedCons(order: seq<MessageId>, c: int)
    requires order != []
    ensures Visited(order, c) == Visited(order[1..], c) + if order[0].connId == c then {order[0].seqNum} else {}
  {
  }

  lemma VisitedOnce(order: seq<MessageId>)
    requires order != [] && Distinct(order)
    ensures order[0].seqNum !in Visited(order[1..], order[0].connId)
  {
  }

  // One entry has its turn: its connection ends, or only its timer moves.
  lemma StepRows(p: Params, t: Maps, id: MessageId)
    requires Coherent(t) && id in t.messageBackoff && id.connId in t.addrAndSeqNum
    ensures Coherent(BackoffStep(p, t, id)) && SameKeys(t) && SameKeys(BackoffStep(p, t, id))
    ensures var c, rows := id.connId, Rows(t);
            && c in rows && id.seqNum in rows[c].timers
            && var v := rows[c].timers[id.seqNum];
            Rows(BackoffStep(p, t, id))
            == if v.timer.total == p.epochLimit then rows - {c}
               else rows[c := rows[c].(timers := rows[c].timers[id.seqNum := TickedInfo(p, v)])]
  {
    hide Loop.Table.Ok, NamesOwner;
    var c, n := id.connId, id.seqNum;
    var v := t.messageBackoff[id];
    HasTimer(t.messageBackoff, c, n);
    TimerAt(t, c, n);
    if v.timer.total == p.epochLimit {
      EndedKeepsCoherent(t, c);
    } else {
      SetTimerRow(t, c, n, TickedInfo(p, v));
      OwnerAt(t, c);
      ArmKeepsTable(t, SetTimer(t, c, n, TickedInfo(p, v)), c,
                    Row(t, c).(timers := Row(t, c).timers[n := TickedInfo(p, v)]));
    }
  }

  lemma TimerAt(t: Maps, c: int, n: int)
    requires SameKeys(t) && c in t.addrAndSeqNum && MessageId(c, n) in t.messageBackoff
    ensures n in Row(t, c).timers && Row(t, c).timers[n] == t.messageBackoff[MessageId(c, n)]
  {
  }

  lemma {:induction false} LoopRows(p: Params, t: Maps, order: seq<MessageId>)
    requires Coherent(t) && Distinct(order)
    ensures Coherent(BackoffLoop(p, t, order))
    ensures SameKeys(t) && SameKeys(BackoffLoop(p, t, order))
    ensures AfterVisits(p, Rows(t), order, Rows(BackoffLoop(p, t, order)))
    decreases |order|
  {
    hide Coherent, Rows, BackoffStep, AfterVisits;
    SameKeysOf(t);
    if order == [] {
      NoVisits(p, Rows(t));
    } else if order[0] in t.messageBackoff && order[0].connId in t.addrAndSeqNum {
      var u := BackoffStep(p, t, order[0]);
      StepRows(p, t, order[0]);
      LoopRows(p, u, order[1..]);
      VisitedOnce(order);
      OneVisit(p, Rows(t), order, Rows(u), Rows(BackoffLoop(p, u, order[1..])));
    } else {
      LoopRows(p, t, order[1..]);
      TimersHaveConnections(t, order[0]);
      SkippedVisit(p, Rows(t), order, Rows(BackoffLoop(p, t, order[1..])));
    }
  }

  lemma NoVisits(p: Params, rows: map<int, S.ServerConn>)
    ensures AfterVisits(p, rows, [], rows)
  {
  }

  // An entry that is not in the map belongs to no row.
  lemma TimersHaveConnections(t: Maps, id: MessageId)
    requires Coherent(t) && SameKeys(t) && !(id in t.messageBackoff && id.connId in t.addrAndSeqNum)
    ensures id.connId in Rows(t) ==> id.seqNum !in Rows(t)[id.connId].timers
  {
  }

  lemma SkippedVisit(p: Params, before: map<int, S.ServerConn>, order: seq<MessageId>, after: map<int, S.ServerConn>)
    requires order != [] && AfterVisits(p, before, order[1..], after)
    requires order[0].connId in before ==> order[0].seqNum !in before[order[0].connId].timers
    ensures AfterVisits(p, before, order, after)
  {
  }

  // The turn of one entry, followed by the turns of the others
  lemma OneVisit(p: Params, before: map<int, S.ServerConn>, order: seq<MessageId>, mid: map<int, S.ServerConn>,
                 after: map<int, S.ServerConn>)
    requires order != [] && order[0].connId in before && order[0].seqNum in before[order[0].connId].timers
    requires order[0].seqNum !in Visited(order[1..], order[0].connId)
    requires var c, n := order[0].connId, order[0].seqNum;
             var v := before[c].timers[n];
             mid == if v.timer.total == p.epochLimit then before - {c}
                    else before[c := before[c].(timers := before[c].timers[n := TickedInfo(p, v)])]
    requires AfterVisits(p, mid, order[1..], after)
    ensures AfterVisits(p, before, order, after)
  {
    var c, n := order[0].connId, order[0].seqNum;
    forall d | d in before
      ensures d in after <==> !ExpiredSome(p, before[d], Visited(order, d))
      ensures d in after ==> after[d] == TickedSome(p, before[d], Visited(order, d))
    {
      VisitedCons(order, d);
      if d == c {
        OwnVisit(p, before[c], n, Visited(order[1..], c));
      }
    }
  }

  lemma OwnVisit(p: Params, r: S.ServerConn, n: int, ns: set<int>)
    requires n in r.timers && n !in ns
    ensures r.timers[n].timer.total == p.epochLimit ==> ExpiredSome(p, r, ns + {n})
    ensures r.timers[n].timer.total != p.epochLimit ==>
              var q := r.(timers := r.timers[n := TickedInfo(p, r.timers[n])]);
              && (ExpiredSome(p, q, ns) <==> ExpiredSome(p, r, ns + {n}))
              && TickedSome(p, q, ns) == TickedSome(p, r, ns + {n})
  {
  }

  // An order in which every entry has one turn
  ghost predicate Lists(order: seq<MessageId>, backoff: map<MessageId, S.BackOffInfo>) {
    Distinct(order) && forall id | id in backoff :: id in order
  }

  lemma SurvivorsExactly(p: Params, before: map<int, S.ServerConn>, conns: map<int, S.ServerConn>)
    requires forall c :: c in conns <==> c in before && !S.Expired(p, before[c])
    requires forall c | c in conns :: conns[c] == S.Ticked(p, before[c])
    ensures conns == Loop.SurvivorsTicked(p, before)
  {
    hide S.Expired, S.Ticked;
    var want := Loop.SurvivorsTicked(p, before);
    forall c
      ensures c in conns.Keys <==> c in want.Keys
    {
      assert c in conns <==> c in before && !S.Expired(p, before[c]);
    }
    assert forall c | c in conns :: conns[c] == want[c];
    MapsEqual(conns, want);
  }

  /** Whatever the order, the loop ends exactly the connections that have an expired entry, and moves every timer of
      the others. */
  lemma BackoffRefines(p: Params, t: Maps, order: seq<MessageId>)
    requires Coherent(t) && Lists(order, t.messageBackoff)
    ensures Coherent(BackoffLoop(p, t, order)) && SameKeys(t) && SameKeys(BackoffLoop(p, t, order))
    ensures Rows(BackoffLoop(p, t, order)) == Loop.SurvivorsTicked(p, Rows(t))
  {
    hide BackoffLoop, Loop.Table.Ok, OwnersNamed;
    LoopRows(p, t, order);
    var after, before := Rows(BackoffLoop(p, t, order)), Rows(t);
    forall c | c in before
      ensures ExpiredSome(p, before[c], Visited(order, c)) <==> S.Expired(p, before[c])
      ensures TickedSome(p, before[c], Visited(order, c)) == S.Ticked(p, before[c])
    {
      AllVisited(t, order, c);
      VisitsOfAll(p, before[c], Visited(order, c));
    }
    SurvivorsExactly(p, before, after);
  }

  lemma AllVisited(t: Maps, order: seq<MessageId>, c: int)
    requires SameKeys(t) && c in t.addrAndSeqNum && Lists(order, t.messageBackoff)
    ensures Row(t, c).timers.Keys <= Visited(order, c)
  {
  }

  lemma VisitsOfAll(p: Params, r: S.ServerConn, ns: set<int>)
    requires r.timers.Keys <= ns
    ensures ExpiredSome(p, r, ns) <==> S.Expired(p, r)
    ensures TickedSome(p, r, ns) == S.Ticked(p, r)
  {
    if S.Expired(p, r) {
      var n :| n in r.timers && r.timers[n].timer.total == p.epochLimit;
      assert n in ns;
    }
    var a, b := TickedSome(p, r, ns).timers, S.Ticked(p, r).timers;
    forall n | n in a
      ensures a[n] == b[n]
    {
      assert n in r.timers.Keys;
    }
    MapsEqual(a, b);
  }

  // ---------- Every arm ----------

  function AgedOut(t: Maps, dropped: Option<int>): Maps {
    match dropped
    case None => AgedAll(t)
    case Some(k) => if k in t.addrAndSeqNum then Ended(AgedAll(t), k) else AgedAll(t)
  }

  predicate NothingUnacked(t: Maps, c: int) {
    Get(t.windows, c) == [] && Get(t.windowOutOfOrder, c) == []
  }

  // A connection whose CloseConn waits for this acknowledgement ends with it.
  function AckThenClose(s: Loop.ServerState, t: Maps, c: int, n: int): Maps {
    var u := AckArm(s.params, t, c, n);
    if c in t.idleEpochElapsed && MessageId(c, n) in t.messageBackoff && c == s.closeId && NothingUnacked(u, c)
       && c in u.addrAndSeqNum
    then Ended(u, c) else u
  }

  // A pending CloseConn that is now complete ends, whichever connection the acknowledgement names.
  function CAckThenClose(s: Loop.ServerState, t: Maps, c: int, n: int): Maps {
    var u := CAckArm(s.params, t, c, n);
    if s.closeId != -1 && NothingUnacked(u, s.closeId) && s.closeId in u.addrAndSeqNum then Ended(u, s.closeId) else u
  }

  function CloseConn(t: Maps, c: int): Maps
    requires c in t.addrAndSeqNum
  {
    if NothingUnacked(t, c) then Ended(t, c) else t
  }

  // What each event does to the maps; s is the rest of the server's state.
  ghost predicate MapsStep(s: Loop.ServerState, t: Maps, e: Loop.Event, u: Maps) {
    match e
    case Ack(c, n) => u == AckThenClose(s, t, c, n)
    case CAck(c, n) => c in s.conns && u == CAckThenClose(s, t, c, n)
    case Connect(addr, isn) => u == ConnectArm(t, s.nextId, addr, isn)
    case Data(c, m) => SameKeys(t) && c in t.addrAndSeqNum && u == DataArm(t, c, m)
    case Send(c, payload) => u == SendArm(s.params, t, c, payload)
    case CloseConn(c) => c in t.addrAndSeqNum && u == CloseConn(t, c)
    case Tick(dropped) =>
      var mid := HeartbeatenAll(AgedOut(t, dropped));
      exists order :: Lists(order, mid.messageBackoff) && u == BackoffLoop(s.params, mid, order)
    case _ => u == t
  }

  // Ending a connection with nothing unacknowledged, on the maps and on the records
  lemma CloseRefines(u: Maps, c: int)
    requires Coherent(u) && SameKeys(u) && c in Rows(u)
    ensures c in u.addrAndSeqNum && (NothingUnacked(u, c) <==> Loop.Idle(Rows(u)[c]))
    ensures Coherent(Ended(u, c)) && SameKeys(Ended(u, c)) && Rows(Ended(u, c)) == Rows(u) - {c}
  {
    hide Loop.Table.Ok, OwnersNamed, TimersOf;
    EndedKeepsCoherent(u, c);
  }

  lemma AckThenCloseRefines(s: Loop.ServerState, t: Maps, c: int, n: int)
    requires Coherent(t) && SameKeys(t) && Rows(t) == s.conns
    ensures Coherent(AckThenClose(s, t, c, n)) && SameKeys(AckThenClose(s, t, c, n))
    ensures Rows(AckThenClose(s, t, c, n)) == Loop.OnAck(s, c, n).conns
  {
    hide Coherent, SameKeys, Rows, AckArm, S.AckArm, NothingUnacked, Loop.Idle, Ended;
    var u := AckArm(s.params, t, c, n);
    AckRefines(s.params, t, c, n);
    AckGuard(t, c, n);
    AckGuard(u, c, n);
    if c in t.addrAndSeqNum {
      CloseRefines(u, c);
    }
  }

  lemma CAckThenCloseRefines(s: Loop.ServerState, t: Maps, c: int, n: int)
    requires Coherent(t) && SameKeys(t) && Rows(t) == s.conns && c in s.conns && Loop.CloseIdLive(s)
    ensures Coherent(CAckThenClose(s, t, c, n)) && SameKeys(CAckThenClose(s, t, c, n))
    ensures Rows(CAckThenClose(s, t, c, n)) == Loop.OnCAck(s, c, n).conns
  {
    hide Coherent, Loop.Table.Ok, CAckArm, S.CAckArm, TimersOf, NothingUnacked, Loop.Idle, Ended;
    var u := CAckArm(s.params, t, c, n);
    CAckRefines(s.params, t, c, n);
    SameKeysOf(u);
    if s.closeId != -1 {
      CloseRefines(u, s.closeId);
    }
  }

  lemma CloseConnRefines(s: Loop.ServerState, t: Maps, c: int)
    requires Coherent(t) && SameKeys(t) && Rows(t) == s.conns && c in t.addrAndSeqNum
    ensures Coherent(CloseConn(t, c)) && SameKeys(CloseConn(t, c))
    ensures c in s.conns && Rows(CloseConn(t, c)) == Loop.OnCloseConn(s, c).conns
  {
    hide Loop.Table.Ok, OwnersNamed, TimersOf;
    EndedKeepsCoherent(t, c);
    assert Rows(t)[c] == Row(t, c);
  }

  lemma TickRefines(s: Loop.ServerState, t: Maps, dropped: Option<int>, order: seq<MessageId>)
    requires Coherent(t) && SameKeys(t) && Rows(t) == s.conns && Loop.MayDrop(s, dropped)
    requires Lists(order, HeartbeatenAll(AgedOut(t, dropped)).messageBackoff)
    ensures var u := BackoffLoop(s.params, HeartbeatenAll(AgedOut(t, dropped)), order);
            Coherent(u) && SameKeys(u) && Rows(u) == Loop.OnTick(s, dropped).conns
  {
    hide Loop.Table.Ok, OwnersNamed, TimersOf, Row, BackoffLoop, Loop.Silent, AgedAll, HeartbeatenAll;
    AgedRows(t);
    AgedOutRows(s, t, dropped);
    AgedRows(AgedOut(t, dropped));
    BackoffRefines(s.params, HeartbeatenAll(AgedOut(t, dropped)), order);
  }

  lemma AgedOutRows(s: Loop.ServerState, t: Maps, dropped: Option<int>)
    requires Coherent(t) && SameKeys(t) && Rows(t) == s.conns && Loop.MayDrop(s, dropped)
    ensures Coherent(AgedOut(t, dropped)) && SameKeys(AgedOut(t, dropped))
    ensures Rows(AgedOut(t, dropped)) == Loop.AgedOut(s, dropped).conns
  {
    hide Loop.Table.Ok, OwnersNamed, TimersOf, Row, Loop.Silent;
    AgedRows(t);
    match dropped
    case None =>
    case Some(k) =>
      assert k in Rows(t);
      EndedKeepsCoherent(AgedAll(t), k);
  }

  /** Each event keeps the maps one table and takes it where the server's event loop takes its records. */
  lemma StepRefines(s: Loop.ServerState, t: Maps, e: Loop.Event, s1: Loop.ServerState, u: Maps)
    requires Coherent(t) && SameKeys(t) && Rows(t) == s.conns && Loop.TableOk(s)
    requires Loop.Step(s, e, s1) && MapsStep(s, t, e, u)
    ensures Coherent(u) && SameKeys(u) && Rows(u) == s1.conns
  {
    hide Coherent, SameKeys, Rows, AckThenClose, CAckThenClose, ConnectArm, DataArm, SendArm, CloseConn, HeartbeatenAll,
         BackoffLoop;
    match e
    case Ack(c, n) => AckThenCloseRefines(s, t, c, n);
    case CAck(c, n) => CAckThenCloseRefines(s, t, c, n);
    case Connect(addr, isn) => NewIdRefines(s, t, addr, isn);
    case Data(c, m) => LiveDataRefines(s, t, c, m);
    case Send(c, payload) => SendRefines(s.params, t, c, payload);
    case CloseConn(c) => CloseConnRefines(s, t, c);
    case Tick(dropped) =>
      var mid := HeartbeatenAll(AgedOut(t, dropped));
      var order :| Lists(order, mid.messageBackoff) && u == BackoffLoop(s.params, mid, order);
      TickRefines(s, t, dropped, order);
    case _ =>
  }

  lemma NewIdRefines(s: Loop.ServerState, t: Maps, addr: S.Addr, isn: int)
    requires Coherent(t) && SameKeys(t) && Rows(t) == s.conns && Loop.TableOk(s)
    ensures Coherent(ConnectArm(t, s.nextId, addr, isn)) && SameKeys(ConnectArm(t, s.nextId, addr, isn))
    ensures Rows(ConnectArm(t, s.nextId, addr, isn)) == Loop.OnConnect(s, addr, isn).conns
  {
    hide Coherent, ConnectArm;
    assert s.nextId !in s.conns;
    RowsKeys(t);
    assert s.nextId !in t.addrAndSeqNum.Keys;
    ConnectRefines(t, s.nextId, addr, isn);
  }

  lemma LiveDataRefines(s: Loop.ServerState, t: Maps, c: int, m: Message)
    requires Coherent(t) && SameKeys(t) && Rows(t) == s.conns && c in t.addrAndSeqNum
    ensures Coherent(DataArm(t, c, m)) && SameKeys(DataArm(t, c, m))
    ensures c in s.conns && Rows(DataArm(t, c, m)) == Loop.OnData(s, c, m).conns
  {
    hide Coherent, SameKeys, Rows, DataArm, S.DataArm, S.Pushed;
    AckGuard(t, c, 0);
    DataRefines(t, c, m);
    SameKeysOf(DataArm(t, c, m));
  }

  ghost predicate IsMapsRun(states: seq<Loop.ServerState>, maps: seq<Maps>, events: seq<Loop.Event>) {
    && |maps| == |states| == |events| + 1
    && maps[0] == EMPTY
    && forall i | 0 <= i < |events| :: MapsStep(states[i], maps[i], events[i], maps[i + 1])
  }

  /** In every run whose Data, CAck and CloseConn events name live connections, the eight maps have one key set, the
      timers and the filter mention live connections only, and the maps hold exactly the records of the event loop. */
  lemma {:induction false} RunStaysCoherent(states: seq<Loop.ServerState>, maps: seq<Maps>, events: seq<Loop.Event>,
                                            i: nat)
    requires Loop.IsRun(states, events) && states[0] == Loop.Initial(states[0].params)
    requires IsMapsRun(states, maps, events) && i < |states|
    ensures Coherent(maps[i]) && SameKeys(maps[i]) && Rows(maps[i]) == states[i].conns
  {
    hide Coherent, SameKeys, Rows, MapsStep, Loop.Step, Loop.TableOk, Loop.TableGrows;
    if i == 0 {
      EmptyIsCoherent();
    } else {
      RunStaysCoherent(states, maps, events, i - 1);
      Loop.RunKeepsTable(states, events, i - 1, i - 1);
      StepRefines(states[i - 1], maps[i - 1], events[i - 1], states[i], maps[i]);
    }
  }

  lemma EmptyIsCoherent()
    ensures Coherent(EMPTY) && SameKeys(EMPTY) && Rows(EMPTY) == map[]
  {
  }
}
