/**
 The maps in which the LSP server (`server_impl.go`) keeps its connections: eight keyed by connection, one keyed by
 connection and number, and the filter for repeated connection requests. They stay one table: the same connections
 are in all of them, and each arm of the event loop does to a connection's entries what `ServerSide` says.
 */
module ConnectionTable {
  import opened Messages
  import opened Backoff
  import opened MapLoops
  import S = ServerSide
  import Loop = ServerLoop

  datatype MessageId = MessageId(connId: int, seqNum: int)

  datatype ClientSeq = ClientSeq(packetAddr: S.Addr, serverSeq: int)

  datatype Maps = Maps(
    addrAndSeqNum: map<int, ClientSeq>,
    readCounters: map<int, int>,
    outOfOrderList: map<int, seq<Message>>,
    windows: map<int, seq<Message>>,
    windowOutOfOrder: map<int, seq<Message>>,
    messageDupMap: map<int, set<int>>,
    idleEpochElapsed: map<int, int>,
    isMessageSent: map<int, bool>,
    messageBackoff: map<MessageId, S.BackOffInfo>,
    connectionDupMap: set<S.Addr>)

  const EMPTY: Maps := Maps(map[], map[], map[], map[], map[], map[], map[], map[], map[], {})

  // ---------- One table ----------

  ghost predicate SameKeys(t: Maps) {
    && t.readCounters.Keys == t.addrAndSeqNum.Keys
    && t.outOfOrderList.Keys == t.addrAndSeqNum.Keys
    && t.windows.Keys == t.addrAndSeqNum.Keys
    && t.windowOutOfOrder.Keys == t.addrAndSeqNum.Keys
    && t.messageDupMap.Keys == t.addrAndSeqNum.Keys
    && t.idleEpochElapsed.Keys == t.addrAndSeqNum.Keys
    && t.isMessageSent.Keys == t.addrAndSeqNum.Keys
  }

  // The timers of one connection
  function TimersOf(backoff: map<MessageId, S.BackOffInfo>, c: int): map<int, S.BackOffInfo> {
    map id | id in backoff && id.connId == c :: id.seqNum := backoff[id]
  }

  // The record of one connection, collected from the maps
  function Row(t: Maps, c: int): S.ServerConn
    requires SameKeys(t) && c in t.addrAndSeqNum
  {
    S.ServerConn(t.addrAndSeqNum[c].packetAddr, t.addrAndSeqNum[c].serverSeq, t.windows[c], t.windowOutOfOrder[c],
                 TimersOf(t.messageBackoff, c), t.readCounters[c], t.outOfOrderList[c], t.messageDupMap[c],
                 t.idleEpochElapsed[c], t.isMessageSent[c])
  }

  function Rows(t: Maps): map<int, S.ServerConn>
    requires SameKeys(t)
  {
    map c | c in t.addrAndSeqNum :: Row(t, c)
  }

  // The keys of the timers are built from the messages, so the messages must name their connection.
  ghost predicate NamesOwner(c: int, ms: seq<Message>) {
    forall m | m in ms :: m.connId == c
  }

  ghost predicate OwnersNamed(t: Maps)
    requires SameKeys(t)
  {
    forall c | c in t.addrAndSeqNum :: NamesOwner(c, t.windows[c]) && NamesOwner(c, t.windowOutOfOrder[c])
  }

  ghost predicate Coherent(t: Maps) {
    && SameKeys(t)
    && (forall id | id in t.messageBackoff :: id.connId in t.addrAndSeqNum)
    && OwnersNamed(t)
    && Loop.Table(Rows(t), t.connectionDupMap).Ok()
  }

  lemma TimersAfterPut(backoff: map<MessageId, S.BackOffInfo>, c: int, n: int, v: S.BackOffInfo, d: int)
    ensures TimersOf(backoff[MessageId(c, n) := v], d)
         == if d == c then TimersOf(backoff, c)[n := v] else TimersOf(backoff, d)
  {
  }

  lemma TimersAfterDelete(backoff: map<MessageId, S.BackOffInfo>, gone: set<MessageId>, d: int)
    ensures TimersOf(backoff - gone, d) == TimersOf(backoff, d) - NumbersOf(gone, d)
  {
  }

  function NumbersOf(ids: set<MessageId>, c: int): set<int> {
    set id | id in ids && id.connId == c :: id.seqNum
  }

  // ---------- endConnection ----------

  function IdsOf(backoff: map<MessageId, S.BackOffInfo>, c: int): set<MessageId> {
    set id | id in backoff && id.connId == c
  }

  // A connection without an address is a nil dereference.
  function Ended(t: Maps, c: int): Maps
    requires c in t.addrAndSeqNum
  {
    Maps(t.addrAndSeqNum - {c}, t.readCounters - {c}, t.outOfOrderList - {c}, t.windows - {c}, t.windowOutOfOrder - {c},
         t.messageDupMap - {c}, t.idleEpochElapsed - {c}, t.isMessageSent - {c},
         t.messageBackoff - IdsOf(t.messageBackoff, c),
         t.connectionDupMap - {t.addrAndSeqNum[c].packetAddr})
  }

  lemma DropKeys<V>(m: map<int, V>, c: int)
    ensures (m - {c}).Keys == m.Keys - {c}
  {
  }

  lemma EndedKeys(t: Maps, c: int)
    requires SameKeys(t) && c in t.addrAndSeqNum
    ensures SameKeys(Ended(t, c)) && Ended(t, c).addrAndSeqNum.Keys == t.addrAndSeqNum.Keys - {c}
  {
    DropKeys(t.addrAndSeqNum, c);
    DropKeys(t.readCounters, c);
    DropKeys(t.outOfOrderList, c);
    DropKeys(t.windows, c);
    DropKeys(t.windowOutOfOrder, c);
    DropKeys(t.messageDupMap, c);
    DropKeys(t.idleEpochElapsed, c);
    DropKeys(t.isMessageSent, c);
  }

  lemma EndedRow(t: Maps, c: int, d: int)
    requires SameKeys(t) && c in t.addrAndSeqNum && d in t.addrAndSeqNum && d != c && SameKeys(Ended(t, c))
    ensures Row(Ended(t, c), d) == Row(t, d)
  {
    hide TimersOf, NumbersOf, IdsOf;
    TimersAfterDelete(t.messageBackoff, IdsOf(t.messageBackoff, c), d);
    OthersNumbers(t.messageBackoff, c, d);
  }

  lemma OthersNumbers(backoff: map<MessageId, S.BackOffInfo>, c: int, d: int)
    requires d != c
    ensures NumbersOf(IdsOf(backoff, c), d) == {}
  {
  }

  lemma EndedRows(t: Maps, c: int)
    requires SameKeys(t) && c in t.addrAndSeqNum
    ensures SameKeys(Ended(t, c)) && Rows(Ended(t, c)) == Rows(t) - {c}
  {
    hide SameKeys, Ended, Row;
    EndedKeys(t, c);
    forall d | d in t.addrAndSeqNum && d != c
      ensures Row(Ended(t, c), d) == Row(t, d)
    {
      EndedRow(t, c, d);
    }
    assert forall d :: d in Ended(t, c).addrAndSeqNum <==> d in t.addrAndSeqNum.Keys - {c};
    MapsEqual(Rows(Ended(t, c)), Rows(t) - {c});
  }

  // Ending a connection removes it from every map and every one of its timers, and frees its address.
  lemma EndedKeepsCoherent(t: Maps, c: int)
    requires Coherent(t) && c in t.addrAndSeqNum
    ensures Coherent(Ended(t, c)) && Rows(Ended(t, c)) == Rows(t) - {c}
  {
    EndedRows(t, c);
    assert Rows(t)[c].addr == t.addrAndSeqNum[c].packetAddr;
    Loop.AddressRemoved(Rows(t), t.connectionDupMap, c);
  }

  // ---------- One connection changes ----------

  ghost predicate OnlyTouches(t: Maps, u: Maps, c: int) {
    && SameKeys(t) && SameKeys(u) && u.addrAndSeqNum.Keys == t.addrAndSeqNum.Keys
    && u.connectionDupMap == t.connectionDupMap
    && forall d | d in t.addrAndSeqNum && d != c :: Row(u, d) == Row(t, d)
  }

  lemma RowsAfterTouch(t: Maps, u: Maps, c: int)
    requires OnlyTouches(t, u, c) && c in t.addrAndSeqNum
    ensures Rows(u) == Rows(t)[c := Row(u, c)]
  {
    hide Row;
    var rows := Rows(t)[c := Row(u, c)];
    forall d | d in Rows(u)
      ensures Rows(u)[d] == rows[d]
    {
      assert d in t.addrAndSeqNum.Keys;
    }
    MapsEqual(Rows(u), rows);
  }

  lemma OwnersAfterTouch(t: Maps, u: Maps, c: int, d: int)
    requires OnlyTouches(t, u, c) && d in t.addrAndSeqNum && d != c
    ensures u.windows[d] == t.windows[d] && u.windowOutOfOrder[d] == t.windowOutOfOrder[d]
  {
  }

  lemma OwnersKept(t: Maps, u: Maps, c: int)
    requires OnlyTouches(t, u, c) && OwnersNamed(t) && c in t.addrAndSeqNum
    requires NamesOwner(c, u.windows[c]) && NamesOwner(c, u.windowOutOfOrder[c])
    ensures OwnersNamed(u)
  {
    hide Row, NamesOwner;
    forall d | d in u.addrAndSeqNum
      ensures NamesOwner(d, u.windows[d]) && NamesOwner(d, u.windowOutOfOrder[d])
    {
      assert d in t.addrAndSeqNum.Keys;
      if d != c {
        OwnersAfterTouch(t, u, c, d);
      }
    }
  }

  lemma TableKept(conns: map<int, S.ServerConn>, inUse: set<S.Addr>, c: int, r: S.ServerConn)
    requires Loop.Table(conns, inUse).Ok() && c in conns && r.addr == conns[c].addr
    ensures Loop.Table(conns[c := r], inUse).Ok()
  {
    Loop.AddressKept(conns, inUse, c, r);
  }

  // The entries of one connection change and keep its address.
  lemma OneRowChanges(t: Maps, u: Maps, c: int)
    requires Coherent(t) && OnlyTouches(t, u, c) && c in t.addrAndSeqNum
    requires Row(u, c).addr == Row(t, c).addr
    requires NamesOwner(c, u.windows[c]) && NamesOwner(c, u.windowOutOfOrder[c])
    requires forall id | id in u.messageBackoff :: id.connId in t.addrAndSeqNum
    ensures Coherent(u) && Rows(u) == Rows(t)[c := Row(u, c)]
  {
    hide OwnersNamed, NamesOwner, Row, Loop.Table.Ok;
    RowsAfterTouch(t, u, c);
    OwnersKept(t, u, c);
    assert Rows(t)[c] == Row(t, c);
    TableKept(Rows(t), t.connectionDupMap, c, Row(u, c));
    forall id | id in u.messageBackoff
      ensures id.connId in u.addrAndSeqNum
    {
      assert id.connId in t.addrAndSeqNum.Keys;
    }
  }

  // ---------- The arms ----------

  // ---------- Assignments to one entry ----------

  function SetSeq(t: Maps, c: int, n: int): Maps
    requires c in t.addrAndSeqNum
  {
    t.(addrAndSeqNum := t.addrAndSeqNum[c := t.addrAndSeqNum[c].(serverSeq := n)])
  }

  function SetIdle(t: Maps, c: int, v: int): Maps {
    t.(idleEpochElapsed := t.idleEpochElapsed[c := v])
  }

  function SetSent(t: Maps, c: int, v: bool): Maps {
    t.(isMessageSent := t.isMessageSent[c := v])
  }

  function SetWindow(t: Maps, c: int, v: seq<Message>): Maps {
    t.(windows := t.windows[c := v])
  }

  function SetQueue(t: Maps, c: int, v: seq<Message>): Maps {
    t.(windowOutOfOrder := t.windowOutOfOrder[c := v])
  }

  function SetDup(t: Maps, c: int, v: set<int>): Maps {
    t.(messageDupMap := t.messageDupMap[c := v])
  }

  function SetCounter(t: Maps, c: int, v: int): Maps {
    t.(readCounters := t.readCounters[c := v])
  }

  function SetList(t: Maps, c: int, v: seq<Message>): Maps {
    t.(outOfOrderList := t.outOfOrderList[c := v])
  }

  function SetTimer(t: Maps, c: int, n: int, v: S.BackOffInfo): Maps {
    t.(messageBackoff := t.messageBackoff[MessageId(c, n) := v])
  }

  function DropTimers(t: Maps, ids: set<MessageId>): Maps {
    t.(messageBackoff := t.messageBackoff - ids)
  }

  lemma SetSeqRow(t: Maps, c: int, n: int)
    requires SameKeys(t) && c in t.addrAndSeqNum
    ensures OnlyTouches(t, SetSeq(t, c, n), c)
    ensures Row(SetSeq(t, c, n), c) == Row(t, c).(serverSeq := n)
  {
    hide TimersOf;
  }

  lemma SetIdleRow(t: Maps, c: int, v: int)
    requires SameKeys(t) && c in t.addrAndSeqNum
    ensures OnlyTouches(t, SetIdle(t, c, v), c)
    ensures Row(SetIdle(t, c, v), c) == Row(t, c).(idle := v)
  {
    hide TimersOf;
  }

  lemma SetSentRow(t: Maps, c: int, v: bool)
    requires SameKeys(t) && c in t.addrAndSeqNum
    ensures OnlyTouches(t, SetSent(t, c, v), c)
    ensures Row(SetSent(t, c, v), c) == Row(t, c).(sent := v)
  {
    hide TimersOf;
  }

  lemma SetWindowRow(t: Maps, c: int, v: seq<Message>)
    requires SameKeys(t) && c in t.addrAndSeqNum
    ensures OnlyTouches(t, SetWindow(t, c, v), c)
    ensures Row(SetWindow(t, c, v), c) == Row(t, c).(window := v)
  {
    hide TimersOf;
  }

  lemma SetQueueRow(t: Maps, c: int, v: seq<Message>)
    requires SameKeys(t) && c in t.addrAndSeqNum
    ensures OnlyTouches(t, SetQueue(t, c, v), c)
    ensures Row(SetQueue(t, c, v), c) == Row(t, c).(queue := v)
  {
    hide TimersOf;
  }

  lemma SetDupRow(t: Maps, c: int, v: set<int>)
    requires SameKeys(t) && c in t.addrAndSeqNum
    ensures OnlyTouches(t, SetDup(t, c, v), c)
    ensures Row(SetDup(t, c, v), c) == Row(t, c).(dup := v)
  {
    hide TimersOf;
  }

  lemma SetCounterRow(t: Maps, c: int, v: int)
    requires SameKeys(t) && c in t.addrAndSeqNum
    ensures OnlyTouches(t, SetCounter(t, c, v), c)
    ensures Row(SetCounter(t, c, v), c) == Row(t, c).(readCounter := v)
  {
    hide TimersOf;
  }

  lemma SetListRow(t: Maps, c: int, v: seq<Message>)
    requires SameKeys(t) && c in t.addrAndSeqNum
    ensures OnlyTouches(t, SetList(t, c, v), c)
    ensures Row(SetList(t, c, v), c) == Row(t, c).(outOfOrder := v)
  {
    hide TimersOf;
  }

  lemma SetTimerRow(t: Maps, c: int, n: int, v: S.BackOffInfo)
    requires SameKeys(t) && c in t.addrAndSeqNum
    ensures OnlyTouches(t, SetTimer(t, c, n, v), c)
    ensures Row(SetTimer(t, c, n, v), c) == Row(t, c).(timers := Row(t, c).timers[n := v])
  {
    hide TimersOf;
    forall d | d in t.addrAndSeqNum
      ensures TimersOf(SetTimer(t, c, n, v).messageBackoff, d)
           == if d == c then TimersOf(t.messageBackoff, c)[n := v] else TimersOf(t.messageBackoff, d)
    {
      TimersAfterPut(t.messageBackoff, c, n, v, d);
    }
  }

  lemma DropTimersRow(t: Maps, c: int, ids: set<MessageId>, ns: set<int>)
    requires SameKeys(t) && c in t.addrAndSeqNum
    requires ns == NumbersOf(ids, c) && forall id | id in ids :: id.connId == c
    ensures OnlyTouches(t, DropTimers(t, ids), c)
    ensures Row(DropTimers(t, ids), c) == Row(t, c).(timers := Row(t, c).timers - ns)
  {
    hide TimersOf;
    forall d | d in t.addrAndSeqNum
      ensures TimersOf(t.messageBackoff - ids, d)
           == if d == c then TimersOf(t.messageBackoff, c) - ns else TimersOf(t.messageBackoff, d)
    {
      TimersAfterDelete(t.messageBackoff, ids, d);
      assert d != c ==> NumbersOf(ids, d) == {};
      assert TimersOf(t.messageBackoff, d) - {} == TimersOf(t.messageBackoff, d);
    }
  }

  lemma TouchesTwice(t: Maps, u: Maps, v: Maps, c: int)
    requires OnlyTouches(t, u, c) && OnlyTouches(u, v, c)
    ensures OnlyTouches(t, v, c)
  {
  }

  // ---------- The arms, in the order of their assignments ----------

  // A missing slice reads as empty.
  function Get(m: map<int, seq<Message>>, c: int): seq<Message> {
    if c in m then m[c] else []
  }

  function StartTimers(t: Maps, ms: seq<Message>): Maps
    decreases |ms|
  {
    if ms == [] then t else StartTimers(SetTimer(t, ms[0].connId, ms[0].seqNum, S.Fresh(ms[0])), ms[1..])
  }

  function Acked(t: Maps, c: int, n: int): Maps {
    DropTimers(SetWindow(SetIdle(t, c, 0), c, Without(Get(t.windows, c), n)), {MessageId(c, n)})
  }

  function Promoted(p: Params, t: Maps, c: int): Maps {
    var window, queue := Get(t.windows, c), Get(t.windowOutOfOrder, c);
    var ms := S.Promotable(p, window, queue);
    SetQueue(SetWindow(StartTimers(t, ms), c, S.Extended(window, ms)), c, S.WithoutAll(queue, ms))
  }

  function AckArm(p: Params, t: Maps, c: int, n: int): Maps {
    if c !in t.idleEpochElapsed then t
    else if MessageId(c, n) in t.messageBackoff then Promoted(p, Acked(t, c, n), c)
    else Acked(t, c, n)
  }

  // The timers of all messages of the window
  function TimersOfWindow(window: seq<Message>): set<MessageId> {
    set m | m in window :: MessageId(m.connId, m.seqNum)
  }

  // This arm does not ask whether the connection exists before it stores its window.
  function CAckArm(p: Params, t: Maps, c: int, n: int): Maps {
    var window := Get(t.windows, c);
    var ms := S.Promotable(p, After(window, n), Get(t.windowOutOfOrder, c));
    var t1 := if c in t.idleEpochElapsed then SetIdle(t, c, 0) else t;
    SetWindow(StartTimers(DropTimers(t1, TimersOfWindow(window)), ms), c, S.Extended(After(window, n), ms))
  }

  function ConnectArm(t: Maps, id: int, addr: S.Addr, isn: int): Maps {
    if addr in t.connectionDupMap then t
    else
      Maps(t.addrAndSeqNum[id := ClientSeq(addr, isn + 1)], t.readCounters[id := isn + 1], t.outOfOrderList[id := []],
           t.windows[id := []], t.windowOutOfOrder[id := []], t.messageDupMap[id := {}], t.idleEpochElapsed[id := 0],
           t.isMessageSent[id := false], t.messageBackoff, t.connectionDupMap + {addr})
  }

  // For a connection that is gone the duplicate map is nil, and writing to it stops the program.
  function DataArm(t: Maps, c: int, m: Message): Maps
    requires SameKeys(t) && c in t.addrAndSeqNum
  {
    var t1 := SetIdle(t, c, 0);
    if m.seqNum in t.messageDupMap[c] then t1
    else
      var t2 := SetDup(t1, c, t.messageDupMap[c] + {m.seqNum});
      if m.seqNum == t.readCounters[c] then
        var run := S.Run(t.outOfOrderList[c], m.seqNum + 1);
        SetList(SetCounter(t2, c, m.seqNum + (1 + |run|)), c, S.Rest(t.outOfOrderList[c], m.seqNum + 1))
      else
        SetList(t2, c, t.outOfOrderList[c] + [m])
  }

  function SendArm(p: Params, t: Maps, c: int, payload: Payload): Maps {
    if c !in t.addrAndSeqNum then t
    else
      var n, window := t.addrAndSeqNum[c].serverSeq, Get(t.windows, c);
      var m := Message(c, n, payload);
      SetSeq(if S.Admits(p, window, n) then
               SetWindow(SetTimer(SetSent(t, c, true), c, n, S.Fresh(m)), c, SortBySeqNum(window + [m]))
             else
               SetQueue(t, c, SortBySeqNum(Get(t.windowOutOfOrder, c) + [m])),
             c, n + 1)
  }

  // ---------- Each arm does to its connection what ServerSide says, and touches no other ----------

  ghost predicate Becomes(t: Maps, u: Maps, c: int, r: S.ServerConn) {
    OnlyTouches(t, u, c) && c in u.addrAndSeqNum && Row(u, c) == r
  }

  lemma HasTimer(backoff: map<MessageId, S.BackOffInfo>, c: int, n: int)
    ensures n in TimersOf(backoff, c) <==> MessageId(c, n) in backoff
  {
  }

  lemma {:induction false} StartTimersRow(t: Maps, c: int, ms: seq<Message>)
    requires SameKeys(t) && c in t.addrAndSeqNum && NamesOwner(c, ms)
    ensures Becomes(t, StartTimers(t, ms), c, Row(t, c).(timers := S.Started(Row(t, c).timers, ms)))
    decreases |ms|
  {
    hide TimersOf, OnlyTouches;
    if ms == [] {
      TouchesNone(t, c);
    } else {
      assert ms[0] in ms;
      var u := SetTimer(t, c, ms[0].seqNum, S.Fresh(ms[0]));
      SetTimerRow(t, c, ms[0].seqNum, S.Fresh(ms[0]));
      TouchKeepsKeys(t, u, c);
      StartTimersRow(u, c, ms[1..]);
      TouchesTwice(t, u, StartTimers(u, ms[1..]), c);
    }
  }

  lemma TouchesNone(t: Maps, c: int)
    requires SameKeys(t)
    ensures OnlyTouches(t, t, c)
  {
  }

  lemma TouchKeepsKeys(t: Maps, u: Maps, c: int)
    requires OnlyTouches(t, u, c)
    ensures SameKeys(u) && u.addrAndSeqNum.Keys == t.addrAndSeqNum.Keys && u.connectionDupMap == t.connectionDupMap
  {
  }

  lemma AckedRow(t: Maps, c: int, n: int)
    requires SameKeys(t) && c in t.addrAndSeqNum
    ensures Becomes(t, Acked(t, c, n), c, S.Acked(Row(t, c), n))
  {
    hide TimersOf, OnlyTouches, Without;
    var t1 := SetIdle(t, c, 0);
    SetIdleRow(t, c, 0);
    TouchKeepsKeys(t, t1, c);
    var t2 := SetWindow(t1, c, Without(Get(t.windows, c), n));
    SetWindowRow(t1, c, Without(Get(t.windows, c), n));
    TouchKeepsKeys(t1, t2, c);
    assert NumbersOf({MessageId(c, n)}, c) == {n};
    DropTimersRow(t2, c, {MessageId(c, n)}, {n});
    TouchesTwice(t, t1, t2, c);
    TouchesTwice(t, t2, Acked(t, c, n), c);
  }

  lemma PromotedRow(p: Params, t: Maps, c: int)
    requires SameKeys(t) && c in t.addrAndSeqNum
    requires NamesOwner(c, S.Promotable(p, t.windows[c], t.windowOutOfOrder[c]))
    ensures Becomes(t, Promoted(p, t, c), c, S.Promoted(p, Row(t, c)))
  {
    hide TimersOf, OnlyTouches, S.Promotable, S.Extended, S.WithoutAll, StartTimers, S.Started, NamesOwner;
    var ms := S.Promotable(p, t.windows[c], t.windowOutOfOrder[c]);
    var t1 := StartTimers(t, ms);
    StartTimersRow(t, c, ms);
    TouchKeepsKeys(t, t1, c);
    var t2 := SetWindow(t1, c, S.Extended(t.windows[c], ms));
    SetWindowRow(t1, c, S.Extended(t.windows[c], ms));
    TouchKeepsKeys(t1, t2, c);
    SetQueueRow(t2, c, S.WithoutAll(t.windowOutOfOrder[c], ms));
    TouchesTwice(t, t1, t2, c);
    TouchesTwice(t, t2, Promoted(p, t, c), c);
  }

  lemma MarkedRow(t: Maps, c: int, n: int)
    requires SameKeys(t) && c in t.addrAndSeqNum
    ensures Becomes(t, SetDup(SetIdle(t, c, 0), c, t.messageDupMap[c] + {n}), c,
                    Row(t, c).(idle := 0, dup := Row(t, c).dup + {n}))
  {
    hide TimersOf, OnlyTouches;
    var t1 := SetIdle(t, c, 0);
    SetIdleRow(t, c, 0);
    TouchKeepsKeys(t, t1, c);
    SetDupRow(t1, c, t.messageDupMap[c] + {n});
    TouchesTwice(t, t1, SetDup(t1, c, t.messageDupMap[c] + {n}), c);
  }

  lemma DataRow(t: Maps, c: int, m: Message)
    requires SameKeys(t) && c in t.addrAndSeqNum
    ensures Becomes(t, DataArm(t, c, m), c, S.DataArm(Row(t, c), m))
  {
    hide TimersOf, OnlyTouches, S.Run, S.Rest;
    if m.seqNum in t.messageDupMap[c] {
      SetIdleRow(t, c, 0);
      TouchKeepsKeys(t, SetIdle(t, c, 0), c);
    } else {
      NewDataRow(t, c, m);
    }
  }

  lemma NewDataShape(r: S.ServerConn, m: Message)
    requires m.seqNum !in r.dup
    ensures var q := r.(idle := 0, dup := r.dup + {m.seqNum});
            S.DataArm(r, m) == if m.seqNum == r.readCounter then
                q.(readCounter := m.seqNum + (1 + |S.Run(r.outOfOrder, m.seqNum + 1)|),
                   outOfOrder := S.Rest(r.outOfOrder, m.seqNum + 1))
              else q.(outOfOrder := r.outOfOrder + [m])
  {
    hide S.Run, S.Rest;
  }

  lemma NewDataRow(t: Maps, c: int, m: Message)
    requires SameKeys(t) && c in t.addrAndSeqNum && m.seqNum !in t.messageDupMap[c]
    ensures Becomes(t, DataArm(t, c, m), c, S.DataArm(Row(t, c), m))
  {
    if m.seqNum == t.readCounters[c] {
      NextDataRow(t, c, m);
    } else {
      EarlyDataRow(t, c, m);
    }
  }

  // One change after another
  lemma BecomesTwice(t: Maps, u: Maps, v: Maps, c: int, r: S.ServerConn, q: S.ServerConn)
    requires Becomes(t, u, c, r) && Becomes(u, v, c, q)
    ensures Becomes(t, v, c, q)
  {
    hide TimersOf, Row, OnlyTouches;
    TouchesTwice(t, u, v, c);
  }

  lemma RowOf(t: Maps, u: Maps, c: int, r: S.ServerConn)
    requires Becomes(t, u, c, r)
    ensures SameKeys(u) && c in u.addrAndSeqNum && Row(u, c) == r
  {
  }

  lemma ReceivingHalf(t: Maps, c: int)
    requires SameKeys(t) && c in t.addrAndSeqNum
    ensures var r := Row(t, c);
            r.dup == t.messageDupMap[c] && r.readCounter == t.readCounters[c] && r.outOfOrder == t.outOfOrderList[c]
  {
  }

  lemma ListRow(t: Maps, c: int, v: seq<Message>)
    requires SameKeys(t) && c in t.addrAndSeqNum
    ensures Becomes(t, SetList(t, c, v), c, Row(t, c).(outOfOrder := v))
  {
    hide TimersOf, Row, OnlyTouches;
    SetListRow(t, c, v);
    TouchKeepsKeys(t, SetList(t, c, v), c);
  }

  lemma NextDataRow(t: Maps, c: int, m: Message)
    requires SameKeys(t) && c in t.addrAndSeqNum && m.seqNum !in t.messageDupMap[c] && m.seqNum == t.readCounters[c]
    ensures Becomes(t, DataArm(t, c, m), c, S.DataArm(Row(t, c), m))
  {
    hide TimersOf, Row, Becomes, S.Run, S.Rest, S.DataArm, SetIdle, SetDup, SetCounter, SetList;
    var r, u := Row(t, c), SetDup(SetIdle(t, c, 0), c, t.messageDupMap[c] + {m.seqNum});
    var q := r.(idle := 0, dup := r.dup + {m.seqNum});
    ReceivingHalf(t, c);
    NewDataShape(r, m);
    MarkedRow(t, c, m.seqNum);
    RowOf(t, u, c, q);
    RunRow(u, c, m.seqNum + (1 + |S.Run(t.outOfOrderList[c], m.seqNum + 1)|),
           S.Rest(t.outOfOrderList[c], m.seqNum + 1));
    BecomesTwice(t, u, DataArm(t, c, m), c, q, S.DataArm(r, m));
  }

  lemma EarlyDataRow(t: Maps, c: int, m: Message)
    requires SameKeys(t) && c in t.addrAndSeqNum && m.seqNum !in t.messageDupMap[c] && m.seqNum != t.readCounters[c]
    ensures Becomes(t, DataArm(t, c, m), c, S.DataArm(Row(t, c), m))
  {
    hide TimersOf, Row, Becomes, S.Run, S.Rest, S.DataArm, SetIdle, SetDup, SetCounter, SetList;
    var r, u := Row(t, c), SetDup(SetIdle(t, c, 0), c, t.messageDupMap[c] + {m.seqNum});
    var q := r.(idle := 0, dup := r.dup + {m.seqNum});
    ReceivingHalf(t, c);
    NewDataShape(r, m);
    MarkedRow(t, c, m.seqNum);
    RowOf(t, u, c, q);
    ListRow(u, c, t.outOfOrderList[c] + [m]);
    BecomesTwice(t, u, DataArm(t, c, m), c, q, S.DataArm(r, m));
  }

  lemma RunRow(t: Maps, c: int, counter: int, rest: seq<Message>)
    requires SameKeys(t) && c in t.addrAndSeqNum
    ensures Becomes(t, SetList(SetCounter(t, c, counter), c, rest), c,
                    Row(t, c).(readCounter := counter, outOfOrder := rest))
  {
    hide TimersOf, OnlyTouches;
    var t1 := SetCounter(t, c, counter);
    SetCounterRow(t, c, counter);
    TouchKeepsKeys(t, t1, c);
    SetListRow(t1, c, rest);
    TouchesTwice(t, t1, SetList(t1, c, rest), c);
  }

  lemma SendRow(p: Params, t: Maps, c: int, payload: Payload)
    requires SameKeys(t) && c in t.addrAndSeqNum
    ensures Becomes(t, SendArm(p, t, c, payload), c, S.SendArm(p, c, Row(t, c), payload))
  {
    hide TimersOf, OnlyTouches, SortBySeqNum, S.Admits;
    var n, window := t.addrAndSeqNum[c].serverSeq, t.windows[c];
    var m := Message(c, n, payload);
    if S.Admits(p, window, n) {
      SentNowRow(t, c, n, m, SortBySeqNum(window + [m]));
    } else {
      var u := SetQueue(t, c, SortBySeqNum(t.windowOutOfOrder[c] + [m]));
      SetQueueRow(t, c, SortBySeqNum(t.windowOutOfOrder[c] + [m]));
      TouchKeepsKeys(t, u, c);
      SetSeqRow(u, c, n + 1);
      TouchesTwice(t, u, SetSeq(u, c, n + 1), c);
    }
  }

  lemma SentNowRow(t: Maps, c: int, n: int, m: Message, window: seq<Message>)
    requires SameKeys(t) && c in t.addrAndSeqNum
    ensures var u := SetWindow(SetTimer(SetSent(t, c, true), c, n, S.Fresh(m)), c, window);
            && c in u.addrAndSeqNum
            && Becomes(t, SetSeq(u, c, n + 1), c,
                       Row(t, c).(serverSeq := n + 1, sent := true, timers := Row(t, c).timers[n := S.Fresh(m)],
                                  window := window))
  {
    hide TimersOf, OnlyTouches;
    var t1 := SetSent(t, c, true);
    SetSentRow(t, c, true);
    TouchKeepsKeys(t, t1, c);
    var t2 := SetTimer(t1, c, n, S.Fresh(m));
    SetTimerRow(t1, c, n, S.Fresh(m));
    TouchKeepsKeys(t1, t2, c);
    var t3 := SetWindow(t2, c, window);
    SetWindowRow(t2, c, window);
    TouchKeepsKeys(t2, t3, c);
    SetSeqRow(t3, c, n + 1);
    TouchesTwice(t, t1, t2, c);
    TouchesTwice(t, t2, t3, c);
    TouchesTwice(t, t3, SetSeq(t3, c, n + 1), c);
  }

  // ---------- Each arm keeps the maps one table ----------

  lemma {:induction false} StartTimersIds(t: Maps, c: int, ms: seq<Message>)
    requires NamesOwner(c, ms)
    ensures forall id | id in StartTimers(t, ms).messageBackoff :: id in t.messageBackoff || id.connId == c
    decreases |ms|
  {
    if ms != [] {
      assert ms[0] in ms;
      StartTimersIds(SetTimer(t, ms[0].connId, ms[0].seqNum, S.Fresh(ms[0])), c, ms[1..]);
    }
  }

  // What an arm must respect for the maps to stay one table
  lemma ArmKeepsTable(t: Maps, u: Maps, c: int, r: S.ServerConn)
    requires Coherent(t) && c in t.addrAndSeqNum && Becomes(t, u, c, r) && r.addr == Row(t, c).addr
    requires NamesOwner(c, r.window) && NamesOwner(c, r.queue)
    requires forall id | id in u.messageBackoff :: id in t.messageBackoff || id.connId == c
    ensures Coherent(u) && Rows(u) == Rows(t)[c := r]
  {
    hide Loop.Table.Ok, OwnersNamed, NamesOwner, OnlyTouches, TimersOf;
    TouchKeepsKeys(t, u, c);
    OneRowChanges(t, u, c);
  }

  lemma OwnerAt(t: Maps, c: int)
    requires Coherent(t) && c in t.addrAndSeqNum
    ensures NamesOwner(c, t.windows[c]) && NamesOwner(c, t.windowOutOfOrder[c])
    ensures c in Rows(t) && Rows(t)[c] == Row(t, c)
  {
  }

  lemma AckedRefines(t: Maps, c: int, n: int)
    requires Coherent(t) && c in t.addrAndSeqNum
    ensures Coherent(Acked(t, c, n)) && Rows(Acked(t, c, n)) == Rows(t)[c := S.Acked(Rows(t)[c], n)]
  {
    hide Coherent, Becomes, Rows, TimersOf;
    SameKeysOf(t);
    OwnerAt(t, c);
    AckedRow(t, c, n);
    ArmKeepsTable(t, Acked(t, c, n), c, S.Acked(Row(t, c), n));
  }

  lemma SameKeysOf(t: Maps)
    requires Coherent(t)
    ensures SameKeys(t)
  {
  }

  lemma PromotedRefines(p: Params, t: Maps, c: int)
    requires Coherent(t) && c in t.addrAndSeqNum
    ensures Coherent(Promoted(p, t, c)) && Rows(Promoted(p, t, c)) == Rows(t)[c := S.Promoted(p, Rows(t)[c])]
  {
    hide Coherent, Becomes, Rows, TimersOf, S.Promotable, S.Extended, S.WithoutAll, StartTimers;
    SameKeysOf(t);
    OwnerAt(t, c);
    var ms := S.Promotable(p, t.windows[c], t.windowOutOfOrder[c]);
    S.PromotableFrom(p, t.windows[c], t.windowOutOfOrder[c]);
    S.ExtendedHolds(t.windows[c], ms);
    S.WithoutAllHolds(t.windowOutOfOrder[c], ms);
    PromotedRow(p, t, c);
    StartTimersIds(t, c, ms);
    ArmKeepsTable(t, Promoted(p, t, c), c, S.Promoted(p, Row(t, c)));
  }

  // An acknowledgement changes the rows as the record arm does; for a connection that is gone it changes nothing.
  lemma AckRefines(p: Params, t: Maps, c: int, n: int)
    requires Coherent(t)
    ensures Coherent(AckArm(p, t, c, n))
    ensures SameKeys(t) && SameKeys(AckArm(p, t, c, n))
    ensures Rows(AckArm(p, t, c, n)) == if c in Rows(t) then Rows(t)[c := S.AckArm(p, Rows(t)[c], n)] else Rows(t)
  {
    hide Coherent, SameKeys, Rows, Row, Promoted, Acked, S.Promoted, S.Acked;
    SameKeysOf(t);
    AckGuard(t, c, n);
    if c in t.addrAndSeqNum {
      var u := Acked(t, c, n);
      AckedRefines(t, c, n);
      SameKeysOf(u);
      if MessageId(c, n) in t.messageBackoff {
        AckGuard(u, c, n);
        PromotedRefines(p, u, c);
        SameKeysOf(Promoted(p, u, c));
      }
    }
  }

  // What the arm asks before anything else, on the maps and on the records
  lemma AckGuard(t: Maps, c: int, n: int)
    requires SameKeys(t)
    ensures c in Rows(t) <==> c in t.addrAndSeqNum
    ensures c in t.idleEpochElapsed <==> c in t.addrAndSeqNum
    ensures c in t.addrAndSeqNum ==> (n in Rows(t)[c].timers <==> MessageId(c, n) in t.messageBackoff)
  {
    hide TimersOf;
    RowsKeys(t);
    HasTimer(t.messageBackoff, c, n);
  }

  lemma DataKeepsSendingHalf(r: S.ServerConn, m: Message)
    ensures var q := S.DataArm(r, m); q.addr == r.addr && q.window == r.window && q.queue == r.queue
  {
    hide S.Run, S.Rest, S.Pushed;
  }

  lemma DataKeepsTimers(t: Maps, c: int, m: Message)
    requires SameKeys(t) && c in t.addrAndSeqNum
    ensures DataArm(t, c, m).messageBackoff == t.messageBackoff
  {
    hide S.Run, S.Rest, SameKeys;
    assert t.outOfOrderList.Keys == t.messageDupMap.Keys == t.addrAndSeqNum.Keys == t.readCounters.Keys by {
      KeysOf(t);
    }
  }

  lemma KeysOf(t: Maps)
    requires SameKeys(t)
    ensures t.outOfOrderList.Keys == t.messageDupMap.Keys == t.addrAndSeqNum.Keys == t.readCounters.Keys
  {
  }

  lemma DataRefines(t: Maps, c: int, m: Message)
    requires Coherent(t) && c in t.addrAndSeqNum
    ensures Coherent(DataArm(t, c, m)) && Rows(DataArm(t, c, m)) == Rows(t)[c := S.DataArm(Rows(t)[c], m)]
  {
    hide Coherent, Becomes, Rows, TimersOf, DataArm, S.DataArm, NamesOwner;
    SameKeysOf(t);
    OwnerAt(t, c);
    DataRow(t, c, m);
    DataKeepsSendingHalf(Row(t, c), m);
    DataKeepsTimers(t, c, m);
    ArmKeepsTable(t, DataArm(t, c, m), c, S.DataArm(Row(t, c), m));
  }

  lemma SendRefines(p: Params, t: Maps, c: int, payload: Payload)
    requires Coherent(t)
    ensures Coherent(SendArm(p, t, c, payload)) && SameKeys(t) && SameKeys(SendArm(p, t, c, payload))
    ensures Rows(SendArm(p, t, c, payload))
         == if c in Rows(t) then Rows(t)[c := S.SendArm(p, c, Rows(t)[c], payload)] else Rows(t)
  {
    hide Coherent, Rows, SendArm, S.SendArm;
    SameKeysOf(t);
    AckGuard(t, c, 0);
    if c in t.addrAndSeqNum {
      LiveSendRefines(p, t, c, payload);
      SameKeysOf(SendArm(p, t, c, payload));
    } else {
      DeadSend(p, t, c, payload);
    }
  }

  lemma DeadSend(p: Params, t: Maps, c: int, payload: Payload)
    requires c !in t.addrAndSeqNum
    ensures SendArm(p, t, c, payload) == t
  {
  }

  lemma SendTimersIds(p: Params, t: Maps, c: int, payload: Payload)
    ensures forall id | id in SendArm(p, t, c, payload).messageBackoff :: id in t.messageBackoff || id.connId == c
  {
    hide SortBySeqNum, S.Admits, SetSeq, SetWindow, SetQueue;
    if c in t.addrAndSeqNum {
      var n, window := t.addrAndSeqNum[c].serverSeq, Get(t.windows, c);
      var m := Message(c, n, payload);
      if S.Admits(p, window, n) {
        var u := SetTimer(SetSent(t, c, true), c, n, S.Fresh(m));
        WindowKeepsTimers(u, c, SortBySeqNum(window + [m]), n + 1);
      } else {
        QueueKeepsTimers(t, c, SortBySeqNum(Get(t.windowOutOfOrder, c) + [m]), n + 1);
      }
    }
  }

  lemma WindowKeepsTimers(t: Maps, c: int, v: seq<Message>, n: int)
    requires c in t.addrAndSeqNum
    ensures c in SetWindow(t, c, v).addrAndSeqNum
    ensures SetSeq(SetWindow(t, c, v), c, n).messageBackoff == t.messageBackoff
  {
  }

  lemma QueueKeepsTimers(t: Maps, c: int, v: seq<Message>, n: int)
    requires c in t.addrAndSeqNum
    ensures c in SetQueue(t, c, v).addrAndSeqNum
    ensures SetSeq(SetQueue(t, c, v), c, n).messageBackoff == t.messageBackoff
  {
  }

  lemma SendNamesOwner(p: Params, c: int, r: S.ServerConn, payload: Payload)
    requires NamesOwner(c, r.window) && NamesOwner(c, r.queue)
    ensures var q := S.SendArm(p, c, r, payload);
            NamesOwner(c, q.window) && NamesOwner(c, q.queue) && q.addr == r.addr
  {
    hide SortBySeqNum, S.Admits;
    var m := Message(c, r.serverSeq, payload);
    SortKeeps(r.window + [m]);
    SortKeeps(r.queue + [m]);
  }

  lemma LiveSendRefines(p: Params, t: Maps, c: int, payload: Payload)
    requires Coherent(t) && c in t.addrAndSeqNum
    ensures Coherent(SendArm(p, t, c, payload))
    ensures Rows(SendArm(p, t, c, payload)) == Rows(t)[c := S.SendArm(p, c, Rows(t)[c], payload)]
  {
    hide Coherent, Rows, Becomes, TimersOf, SendArm, S.SendArm, NamesOwner;
    SameKeysOf(t);
    OwnerAt(t, c);
    SendRow(p, t, c, payload);
    SendTimersIds(p, t, c, payload);
    SendNamesOwner(p, c, Row(t, c), payload);
    ArmKeepsTable(t, SendArm(p, t, c, payload), c, S.SendArm(p, c, Row(t, c), payload));
  }

  // ---------- A new connection ----------

  lemma PutKeys<V>(m: map<int, V>, c: int, v: V)
    ensures m[c := v].Keys == m.Keys + {c}
  {
  }

  lemma ConnectKeys(t: Maps, id: int, addr: S.Addr, isn: int)
    requires SameKeys(t) && addr !in t.connectionDupMap
    ensures SameKeys(ConnectArm(t, id, addr, isn))
    ensures ConnectArm(t, id, addr, isn).addrAndSeqNum.Keys == t.addrAndSeqNum.Keys + {id}
  {
    PutKeys(t.addrAndSeqNum, id, ClientSeq(addr, isn + 1));
    PutKeys(t.readCounters, id, isn + 1);
    PutKeys(t.outOfOrderList, id, []);
    PutKeys(t.windows, id, []);
    PutKeys(t.windowOutOfOrder, id, []);
    PutKeys(t.messageDupMap, id, {});
    PutKeys(t.idleEpochElapsed, id, 0);
    PutKeys(t.isMessageSent, id, false);
  }

  lemma OpenedRow(t: Maps, u: Maps, id: int, addr: S.Addr, isn: int)
    requires SameKeys(t) && SameKeys(u) && addr !in t.connectionDupMap && u == ConnectArm(t, id, addr, isn)
    requires id in u.addrAndSeqNum && TimersOf(t.messageBackoff, id) == map[]
    ensures Row(u, id) == S.Opened(addr, isn)
  {
  }

  lemma OldRow(t: Maps, u: Maps, id: int, addr: S.Addr, isn: int, d: int)
    requires SameKeys(t) && SameKeys(u) && addr !in t.connectionDupMap && u == ConnectArm(t, id, addr, isn)
    requires d in t.addrAndSeqNum && d in u.addrAndSeqNum && d != id
    ensures Row(u, d) == Row(t, d) && u.windows[d] == t.windows[d] && u.windowOutOfOrder[d] == t.windowOutOfOrder[d]
  {
    hide TimersOf;
  }

  lemma ConnectedRows(t: Maps, u: Maps, id: int, addr: S.Addr, isn: int)
    requires Coherent(t) && id !in t.addrAndSeqNum && addr !in t.connectionDupMap
    requires u == ConnectArm(t, id, addr, isn) && SameKeys(u)
    requires u.addrAndSeqNum.Keys == t.addrAndSeqNum.Keys + {id}
    ensures Rows(u) == Rows(t)[id := S.Opened(addr, isn)]
  {
    hide Row, Loop.Table.Ok, ConnectArm, OwnersNamed, SameKeys;
    SameKeysOf(t);
    NoTimers(t, id);
    assert id in u.addrAndSeqNum.Keys;
    OpenedRow(t, u, id, addr, isn);
    forall d | d in t.addrAndSeqNum
      ensures d in u.addrAndSeqNum && Row(u, d) == Row(t, d)
    {
      assert d in u.addrAndSeqNum.Keys;
      OldRow(t, u, id, addr, isn, d);
    }
    assert forall d | d in u.addrAndSeqNum :: d in t.addrAndSeqNum.Keys || d == id;
    MapsEqual(Rows(u), Rows(t)[id := S.Opened(addr, isn)]);
  }

  lemma ConnectedOwners(t: Maps, u: Maps, id: int, addr: S.Addr, isn: int)
    requires SameKeys(t) && OwnersNamed(t) && id !in t.addrAndSeqNum && addr !in t.connectionDupMap
    requires u == ConnectArm(t, id, addr, isn) && SameKeys(u)
    requires u.addrAndSeqNum.Keys == t.addrAndSeqNum.Keys + {id}
    ensures OwnersNamed(u)
  {
  }

  lemma NoTimers(t: Maps, id: int)
    requires Coherent(t) && id !in t.addrAndSeqNum
    ensures TimersOf(t.messageBackoff, id) == map[]
  {
  }

  lemma TableExtended(conns: map<int, S.ServerConn>, inUse: set<S.Addr>, c: int, r: S.ServerConn)
    requires Loop.Table(conns, inUse).Ok() && c !in conns && r.addr !in inUse
    ensures Loop.Table(conns[c := r], inUse + {r.addr}).Ok()
  {
    Loop.AddressAdded(conns, inUse, c, r);
  }

  lemma ConnectRefines(t: Maps, id: int, addr: S.Addr, isn: int)
    requires Coherent(t) && id !in t.addrAndSeqNum
    ensures Coherent(ConnectArm(t, id, addr, isn)) && SameKeys(t) && SameKeys(ConnectArm(t, id, addr, isn))
    ensures Rows(ConnectArm(t, id, addr, isn))
         == if Loop.InUseBy(Rows(t), addr) then Rows(t) else Rows(t)[id := S.Opened(addr, isn)]
  {
    hide Coherent, Rows, Loop.InUseBy;
    SameKeysOf(t);
    FilterIsExact(t, addr);
    if addr !in t.connectionDupMap {
      NewAddressRefines(t, id, addr, isn);
    }
  }

  lemma NewAddressRefines(t: Maps, id: int, addr: S.Addr, isn: int)
    requires Coherent(t) && id !in t.addrAndSeqNum && addr !in t.connectionDupMap
    ensures var u := ConnectArm(t, id, addr, isn);
            Coherent(u) && SameKeys(u) && Rows(u) == Rows(t)[id := S.Opened(addr, isn)]
  {
    hide Row, OwnersNamed, Loop.Table.Ok;
    var u := ConnectArm(t, id, addr, isn);
    ConnectKeys(t, id, addr, isn);
    ConnectedRows(t, u, id, addr, isn);
    ConnectedOwners(t, u, id, addr, isn);
    RowsKeys(t);
    assert id !in Rows(t).Keys;
    TableExtended(Rows(t), t.connectionDupMap, id, S.Opened(addr, isn));
    assert forall k | k in u.messageBackoff :: k.connId in t.addrAndSeqNum.Keys;
  }

  lemma RowsKeys(t: Maps)
    requires SameKeys(t)
    ensures Rows(t).Keys == t.addrAndSeqNum.Keys
  {
  }

  lemma FilterIsExact(t: Maps, addr: S.Addr)
    requires Coherent(t)
    ensures addr in t.connectionDupMap <==> Loop.InUseBy(Rows(t), addr)
  {
  }

  // ---------- Cumulative acknowledgements ----------

  lemma CAckRow(p: Params, t: Maps, c: int, n: int)
    requires SameKeys(t) && c in t.addrAndSeqNum && NamesOwner(c, t.windows[c])
    requires NamesOwner(c, S.Promotable(p, After(t.windows[c], n), t.windowOutOfOrder[c]))
    ensures Becomes(t, CAckArm(p, t, c, n), c, S.CAckArm(p, Row(t, c), n))
  {
    hide TimersOf, OnlyTouches, S.Promotable, S.Extended, StartTimers, S.Started, NamesOwner, After;
    var window := t.windows[c];
    var ms := S.Promotable(p, After(window, n), t.windowOutOfOrder[c]);
    var t1 := SetIdle(t, c, 0);
    SetIdleRow(t, c, 0);
    TouchKeepsKeys(t, t1, c);
    var t2 := DropTimers(t1, TimersOfWindow(window));
    AllTimersOfWindow(window, c);
    DropTimersRow(t1, c, TimersOfWindow(window), SeqNums(window));
    TouchKeepsKeys(t1, t2, c);
    TouchesTwice(t, t1, t2, c);
    CAckTail(t2, c, ms, S.Extended(After(window, n), ms));
    TouchesTwice(t, t2, CAckArm(p, t, c, n), c);
    TouchKeepsKeys(t, CAckArm(p, t, c, n), c);
  }

  lemma CAckTail(t: Maps, c: int, ms: seq<Message>, window: seq<Message>)
    requires SameKeys(t) && c in t.addrAndSeqNum && NamesOwner(c, ms)
    ensures Becomes(t, SetWindow(StartTimers(t, ms), c, window), c,
                    Row(t, c).(timers := S.Started(Row(t, c).timers, ms), window := window))
  {
    hide TimersOf, OnlyTouches, StartTimers, S.Started, NamesOwner;
    var u := StartTimers(t, ms);
    StartTimersRow(t, c, ms);
    TouchKeepsKeys(t, u, c);
    SetWindowRow(u, c, window);
    TouchesTwice(t, u, SetWindow(u, c, window), c);
  }

  lemma AllTimersOfWindow(window: seq<Message>, c: int)
    requires NamesOwner(c, window)
    ensures NumbersOf(TimersOfWindow(window), c) == SeqNums(window)
    ensures forall id | id in TimersOfWindow(window) :: id.connId == c
  {
    forall n
      ensures n in NumbersOf(TimersOfWindow(window), c) <==> n in SeqNums(window)
    {
      if n in SeqNums(window) {
        var m :| m in window && m.seqNum == n;
        assert MessageId(m.connId, m.seqNum) in TimersOfWindow(window);
      }
    }
  }

  /** A cumulative acknowledgement keeps the maps one table exactly when it names a live connection: for any other id
      it leaves an entry in `windows` alone. */
  lemma CAckKeepsKeysIff(p: Params, t: Maps, c: int, n: int)
    requires SameKeys(t)
    ensures SameKeys(CAckArm(p, t, c, n)) <==> c in t.addrAndSeqNum
  {
    hide S.Promotable, S.Extended, TimersOfWindow, StartTimers, After;
    var window := Get(t.windows, c);
    var ms := S.Promotable(p, After(window, n), Get(t.windowOutOfOrder, c));
    var t1 := if c in t.idleEpochElapsed then SetIdle(t, c, 0) else t;
    StartTimersKeepsMaps(DropTimers(t1, TimersOfWindow(window)), ms);
    PutKeys(t.windows, c, S.Extended(After(window, n), ms));
    if c in t.addrAndSeqNum {
      PutKeys(t.idleEpochElapsed, c, 0);
      assert t.addrAndSeqNum.Keys + {c} == t.addrAndSeqNum.Keys;
    } else {
      assert c in t.windows.Keys + {c};
    }
  }

  // All that it leaves behind is an empty window under an id that is not live.
  lemma StrayCAck(p: Params, t: Maps, c: int, n: int)
    requires SameKeys(t) && c !in t.addrAndSeqNum
    ensures CAckArm(p, t, c, n) == t.(windows := t.windows[c := []])
  {
    assert Get(t.windows, c) == [] && Get(t.windowOutOfOrder, c) == [];
    assert TimersOfWindow([]) == {};
    assert t.messageBackoff - {} == t.messageBackoff;
  }

  // So the server's first packet already breaks them, if it is a cumulative acknowledgement.
  lemma EarlyCAckBreaksKeys(p: Params, c: int, n: int)
    ensures SameKeys(EMPTY) && !SameKeys(CAckArm(p, EMPTY, c, n))
  {
    CAckKeepsKeysIff(p, EMPTY, c, n);
  }

  lemma {:induction false} StartTimersKeepsMaps(t: Maps, ms: seq<Message>)
    ensures StartTimers(t, ms) == t.(messageBackoff := StartTimers(t, ms).messageBackoff)
    decreases |ms|
  {
    if ms != [] {
      StartTimersKeepsMaps(SetTimer(t, ms[0].connId, ms[0].seqNum, S.Fresh(ms[0])), ms[1..]);
    }
  }

  lemma CAckRefines(p: Params, t: Maps, c: int, n: int)
    requires Coherent(t) && c in t.addrAndSeqNum
    ensures Coherent(CAckArm(p, t, c, n)) && Rows(CAckArm(p, t, c, n)) == Rows(t)[c := S.CAckArm(p, Rows(t)[c], n)]
  {
    hide Coherent, Becomes, Rows, TimersOf, S.Promotable, S.Extended, StartTimers, TimersOfWindow;
    SameKeysOf(t);
    OwnerAt(t, c);
    var window := t.windows[c];
    var ms := S.Promotable(p, After(window, n), t.windowOutOfOrder[c]);
    S.PromotableFrom(p, After(window, n), t.windowOutOfOrder[c]);
    S.ExtendedHolds(After(window, n), ms);
    CAckRow(p, t, c, n);
    StartTimersIds(DropTimers(SetIdle(t, c, 0), TimersOfWindow(window)), c, ms);
    ArmKeepsTable(t, CAckArm(p, t, c, n), c, S.CAckArm(p, Row(t, c), n));
  }
}
