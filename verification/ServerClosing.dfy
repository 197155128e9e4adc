/**
 When the LSP server completes CloseConn and Close, over whole runs of its event loop.
 */
module ServerClosing {
  import opened Messages
  import opened ServerLoop
  import opened ServerSchedule
  import opened ServerSide

  // Nothing is unacknowledged or waiting for the connection.
  predicate Quiet(r: ServerConn) {
    r.window == [] && r.queue == []
  }

  lemma QuietIsIdle(r: ServerConn)
    ensures Idle(r) <==> Quiet(r)
  {
  }

  // ---------- One connection ----------

  lemma SentIsNotQuiet(p: Params, c: int, r: ServerConn, payload: Payload)
    ensures !Quiet(SendArm(p, c, r, payload))
  {
    var m := Message(c, r.serverSeq, payload);
    SortKeeps(r.window + [m]);
    SortKeeps(r.queue + [m]);
  }

  lemma UnknownAckKeeps(p: Params, r: ServerConn, n: int)
    requires SenderOk(r) && n !in r.timers
    ensures AckArm(p, r, n).window == r.window && AckArm(p, r, n).queue == r.queue
  {
    hide Ascending;
  }

  // A connection in step becomes quiet by an acknowledgement of one of its messages only, or a cumulative one.
  lemma OnlyAcksQuiet(p: Params, c: int, r: ServerConn, e: Event)
    requires RowOk(p, r) && !Quiet(r) && Quiet(RowAfter(p, c, r, e))
    ensures (e.Ack? && e.connId == c && e.seqNum in r.timers) || (e.CAck? && e.connId == c)
  {
    hide RowOk, AckArm, CAckArm, SendArm, Run, Rest;
    match e
    case Ack(d, n) =>
      if d == c && n !in r.timers {
        RowParts(p, r);
        UnknownAckKeeps(p, r, n);
      }
    case Send(d, payload) =>
      if d == c {
        SentIsNotQuiet(p, c, r, payload);
      }
    case _ =>
  }

  lemma RowParts(p: Params, r: ServerConn)
    requires RowOk(p, r)
    ensures SenderOk(r)
  {
  }

  // ---------- CloseConn ----------

  // The connection whose CloseConn is pending has something unacknowledged or waiting.
  ghost predicate Pending(s: ServerState, c: int) {
    s.closeId == c && c in s.conns && !Quiet(s.conns[c])
  }

  lemma EventKeepsPending(s: ServerState, e: Event, t: ServerState, c: int)
    requires TableOk(s) && Step(s, e, t) && Pending(s, c) && RowOk(s.params, s.conns[c]) && c != -1
    requires !e.CloseConn? && c in t.conns
    ensures Pending(t, c)
  {
    hide RowOk, TableOk, AckArm, CAckArm, DataArm, SendArm, Ticked, RowAfter;
    SurvivorsRow(s, e, t, c);
    QuietIsIdle(t.conns[c]);
    if Quiet(t.conns[c]) {
      OnlyAcksQuiet(s.params, c, s.conns[c], e);
    }
    KeepsCloseId(s, e, t, c);
  }

  // The id is forgotten only together with its connection, and an acknowledgement that completes it ends it.
  lemma KeepsCloseId(s: ServerState, e: Event, t: ServerState, c: int)
    requires Step(s, e, t) && s.closeId == c && c != -1 && c in s.conns && c in t.conns && !e.CloseConn?
    ensures t.closeId == c
    ensures (e.Ack? && e.connId == c && e.seqNum in s.conns[c].timers) || (e.CAck? && e.connId == c) ==>
              !Idle(t.conns[c])
  {
    hide AckArm, CAckArm, DataArm, SendArm, Ticked;
  }

  /** A CloseConn of a live connection either ends it at once or is remembered until it is gone: as long as it is live,
      something of it is unacknowledged or waiting. So the acknowledgement of its last message ends it. */
  lemma {:induction false} CloseConnIsRemembered(states: seq<ServerState>, events: seq<Event>, i: nat, j: nat, c: int)
    requires FromStart(states, events) && i < j < |states| && events[i] == CloseConn(c)
    requires forall k | i < k < j :: !events[k].CloseConn?
    requires InStepUpTo(states, events, c, j) && c in states[j].conns
    ensures states[j].closeId == c && (states[j].conns[c].window != [] || states[j].conns[c].queue != [])
    decreases j
  {
    hide RowOk, InStep, TableOk, TableGrows, Step;
    RunKeepsTable(states, events, j - 1, j);
    RememberedOrEnded(states[i], c, states[i + 1]);
    var s, t := states[j - 1], states[j];
    if i < j - 1 {
      LiveBefore(states, events, i, j - 1, j, c);
      CloseConnIsRemembered(states, events, i, j - 1, c);
      RowsStayOk(states, events, j - 1, c);
      assert !events[j - 1].CloseConn?;
      PositiveId(s, c);
      EventKeepsPending(s, events[j - 1], t, c);
    }
  }

  lemma RememberedOrEnded(s: ServerState, c: int, t: ServerState)
    requires Step(s, CloseConn(c), t)
    ensures c in s.conns && (c in t.conns ==> Pending(t, c))
  {
  }

  lemma PositiveId(s: ServerState, c: int)
    requires TableOk(s) && c in s.conns
    ensures c != -1
  {
  }

  // ---------- The id that is remembered ----------

  // Up to state i, all cumulative acknowledgements were in step.
  ghost predicate AllInStep(states: seq<ServerState>, events: seq<Event>, i: nat)
    requires i <= |events| && |states| == |events| + 1
  {
    forall c :: InStepUpTo(states, events, c, i)
  }

  lemma EarlierInStep(states: seq<ServerState>, events: seq<Event>, i: nat, j: nat)
    requires i <= j <= |events| && |states| == |events| + 1 && AllInStep(states, events, j)
    ensures AllInStep(states, events, i)
  {
    hide InStep;
    forall c
      ensures InStepUpTo(states, events, c, i)
    {
      assert InStepUpTo(states, events, c, j);
    }
  }

  // It was issued, and while its connection is live that has something unacknowledged or waiting.
  ghost predicate IdOk(s: ServerState) {
    && s.closeId < s.nextId
    && (s.closeId in s.conns ==> Pending(s, s.closeId))
  }

  lemma NewIdIsOk(s: ServerState, e: Event, t: ServerState)
    requires TableOk(s) && Step(s, e, t) && IdOk(s) && t.closeId != s.closeId
    ensures t.closeId == -1 || (e == CloseConn(t.closeId) && t.closeId in s.conns)
    ensures IdOk(t) && (t.closeId == -1 || t.closeId in t.conns)
  {
    hide AckArm, CAckArm, DataArm, SendArm, Ticked;
  }

  lemma SameIdWasLive(s: ServerState, e: Event, t: ServerState)
    requires TableOk(s) && TableGrows(s, t) && IdOk(s) && t.closeId == s.closeId && t.closeId in t.conns
    ensures t.closeId in s.conns && t.closeId != -1
  {
    assert t.closeId < s.nextId;
  }

  lemma ClosedAgain(s: ServerState, e: Event, t: ServerState, c: int)
    requires Step(s, e, t) && e.CloseConn? && t.closeId == c && Pending(s, c) && c in t.conns
    ensures Pending(t, c)
  {
  }

  // Only an epoch ends the connection and leaves its id behind.
  lemma IdLosesConnection(s: ServerState, e: Event, t: ServerState)
    requires Step(s, e, t) && t.closeId == s.closeId && s.closeId != -1 && Pending(s, s.closeId)
    requires s.closeId !in t.conns
    ensures e.Tick?
  {
    hide AckArm, CAckArm, DataArm, SendArm, Ticked;
  }

  lemma EventKeepsId(s: ServerState, e: Event, t: ServerState)
    requires TableOk(s) && TableOk(t) && TableGrows(s, t) && Step(s, e, t) && IdOk(s)
    requires s.closeId in s.conns ==> RowOk(s.params, s.conns[s.closeId])
    ensures IdOk(t)
    ensures t.closeId != -1 && t.closeId !in t.conns ==>
              && t.closeId == s.closeId
              && (s.closeId in s.conns ==> e.Tick?)
  {
    hide RowOk, TableOk, TableGrows, Step, Pending;
    if t.closeId != s.closeId {
      NewIdIsOk(s, e, t);
    } else {
      NextIdGrows(s, t);
      if t.closeId in t.conns {
        SameIdWasLive(s, e, t);
        if e.CloseConn? {
          ClosedAgain(s, e, t, t.closeId);
        } else {
          EventKeepsPending(s, e, t, t.closeId);
        }
      } else if s.closeId != -1 && s.closeId in s.conns {
        IdLosesConnection(s, e, t);
      }
    }
  }

  lemma NextIdGrows(s: ServerState, t: ServerState)
    requires TableGrows(s, t)
    ensures s.nextId <= t.nextId
  {
  }

  lemma {:induction false} IdStaysOk(states: seq<ServerState>, events: seq<Event>, i: nat)
    requires FromStart(states, events) && i < |states| && AllInStep(states, events, i)
    ensures IdOk(states[i])
    decreases i
  {
    hide RowOk, InStep, TableOk, TableGrows, Step;
    if i > 0 {
      EarlierInStep(states, events, i - 1, i);
      IdStaysOk(states, events, i - 1);
      IdMoves(states, events, i - 1);
    }
  }

  lemma IdMoves(states: seq<ServerState>, events: seq<Event>, i: nat)
    requires FromStart(states, events) && i < |events| && AllInStep(states, events, i) && IdOk(states[i])
    ensures var s, t := states[i], states[i + 1];
            && IdOk(t)
            && (t.closeId != -1 && t.closeId !in t.conns ==>
                  && t.closeId == s.closeId
                  && (s.closeId in s.conns ==> events[i].Tick?))
  {
    hide RowOk, InStep, TableOk, TableGrows, Step, IdOk;
    RunKeepsTable(states, events, i, i + 1);
    var c := states[i].closeId;
    if c in states[i].conns {
      assert InStepUpTo(states, events, c, i);
      RowsStayOk(states, events, i, c);
    }
    EventKeepsId(states[i], events[i], states[i + 1]);
  }

  // An epoch ended connection c while its CloseConn was pending.
  ghost predicate EndedWhilePending(states: seq<ServerState>, events: seq<Event>, c: int, k: nat)
    requires k < |events| && |states| == |events| + 1
  {
    events[k].Tick? && states[k].closeId == c && c in states[k].conns && c !in states[k + 1].conns
  }

  lemma {:induction false} DanglingWasEnded(states: seq<ServerState>, events: seq<Event>, i: nat) returns (k: nat)
    requires FromStart(states, events) && i < |states| && AllInStep(states, events, i)
    requires states[i].closeId != -1 && states[i].closeId !in states[i].conns
    ensures k < i && EndedWhilePending(states, events, states[i].closeId, k)
    decreases i
  {
    hide RowOk, InStep, Step, IdOk;
    EarlierInStep(states, events, i - 1, i);
    IdStaysOk(states, events, i - 1);
    IdMoves(states, events, i - 1);
    if states[i].closeId in states[i - 1].conns {
      k := i - 1;
    } else {
      k := DanglingWasEnded(states, events, i - 1);
    }
  }

  /** The id that is remembered names no live connection, which is what the cumulative acknowledgement arm cannot bear,
      exactly when an epoch ended its connection while the CloseConn was pending. */
  lemma CloseIdDanglesIff(states: seq<ServerState>, events: seq<Event>, i: nat)
    requires FromStart(states, events) && i < |states| && AllInStep(states, events, i)
    ensures CloseIdLive(states[i])
            <==> !exists k: nat | k < i :: EndedWhilePending(states, events, states[i].closeId, k)
  {
    hide RowOk, InStep, Step, IdOk, TableOk, TableGrows;
    if !CloseIdLive(states[i]) {
      var k := DanglingWasEnded(states, events, i);
    }
    forall k: nat | k < i && EndedWhilePending(states, events, states[i].closeId, k)
      ensures !CloseIdLive(states[i])
    {
      RunKeepsTable(states, events, k, k + 1);
      RunKeepsTable(states, events, k + 1, i);
      DeadStaysDead(states[k], states[k + 1], states[i], states[i].closeId);
    }
  }

  lemma DeadStaysDead(s: ServerState, t: ServerState, u: ServerState, c: int)
    requires TableOk(s) && TableGrows(s, t) && TableGrows(t, u) && c in s.conns && c !in t.conns
    ensures c !in u.conns && c != -1
  {
  }

  // A connection live before and after was live in between.
  lemma LiveBefore(states: seq<ServerState>, events: seq<Event>, i: nat, k: nat, j: nat, c: int)
    requires FromStart(states, events) && i <= k <= j < |states| && c in states[j].conns
    requires c in states[i].conns
    ensures c in states[k].conns
  {
    hide Step;
    RunKeepsTable(states, events, i, k);
    RunKeepsTable(states, events, k, j);
  }

  /** No event other than an epoch ends a connection before all its messages are acknowledged, and none ends one that
      nobody asked to close. */
  lemma EndedWhenDone(s: ServerState, e: Event, t: ServerState, c: int)
    requires Step(s, e, t) && c in s.conns && c !in t.conns && !e.Tick?
    ensures e == CloseConn(c) || (s.closeId == c && (e.Ack? || e.CAck?))
    ensures var r := RowAfter(s.params, c, s.conns[c], e); r.window == [] && r.queue == []
  {
    hide AckArm, CAckArm, DataArm, SendArm;
  }

  // ---------- Close ----------

  ghost predicate AllQuiet(s: ServerState) {
    forall c | c in s.conns :: s.conns[c].window == [] && s.conns[c].queue == []
  }

  lemma AllQuietIsIdle(s: ServerState)
    ensures AllIdle(s) <==> AllQuiet(s)
  {
    if AllIdle(s) {
      forall c | c in s.conns
        ensures Quiet(s.conns[c])
      {
        QuietIsIdle(s.conns[c]);
      }
    }
  }

  // The connections of a state that are not quiet become quiet or end in the next.
  lemma SomeoneQuiets(s: ServerState, e: Event, t: ServerState, c: int)
    requires TableOk(s) && Step(s, e, t) && c in s.conns && !Quiet(s.conns[c]) && RowOk(s.params, s.conns[c])
    requires AllQuiet(t) && !e.Tick?
    ensures (e.Ack? && e.connId == c && e.seqNum in s.conns[c].timers) || e.CAck?
  {
    hide RowOk, TableOk, AckArm, CAckArm, DataArm, SendArm, RowAfter;
    if c in t.conns {
      SurvivorsRow(s, e, t, c);
    } else {
      EndedWhenDone(s, e, t, c);
    }
    OnlyAcksQuiet(s.params, c, s.conns[c], e);
  }

  /** The event after which Close has been called and nothing is unacknowledged or waiting any more releases the Close
      if and only if it is not an epoch: an epoch that ends the last connection that was not quiet asks nobody. */
  lemma CloseReleasedIff(states: seq<ServerState>, events: seq<Event>, i: nat)
    requires FromStart(states, events) && i < |events| && AllInStep(states, events, i)
    requires states[i + 1].isClosed && AllQuiet(states[i + 1])
    requires !(states[i].isClosed && AllQuiet(states[i])) || events[i] == Close
    ensures Releases(states[i], events[i], states[i + 1]) <==> !events[i].Tick?
  {
    hide RowOk, TableOk, Step, InStep, AllIdle;
    var s, e, t := states[i], events[i], states[i + 1];
    RunKeepsTable(states, events, i, i);
    AllQuietIsIdle(t);
    assert Step(s, e, t);
    if e != Close && !e.Tick? {
      ClosedBefore(s, e, t);
      var c :| c in s.conns && !Quiet(s.conns[c]);
      assert InStepUpTo(states, events, c, i);
      RowsStayOk(states, events, i, c);
      SomeoneQuiets(s, e, t, c);
    }
  }

  lemma ClosedBefore(s: ServerState, e: Event, t: ServerState)
    requires Step(s, e, t) && e != Close
    ensures t.isClosed == s.isClosed
  {
    hide AckArm, CAckArm, DataArm, SendArm, Ticked;
  }

  lemma {:induction false} ClosedByClose(states: seq<ServerState>, events: seq<Event>, i: nat)
    requires FromStart(states, events) && i < |states|
    ensures states[i].isClosed <==> exists k | 0 <= k < i :: events[k] == Close
  {
    hide Step;
    if i > 0 {
      ClosedByClose(states, events, i - 1);
      assert Step(states[i - 1], events[i - 1], states[i]);
      OthersUntouched(states[i - 1], events[i - 1], states[i]);
      assert events[i - 1].Close? <==> events[i - 1] == Close;
    }
  }

  // A Close is released only after it was called, with nothing unacknowledged or waiting anywhere.
  lemma ReleasedWhenQuiet(states: seq<ServerState>, events: seq<Event>, i: nat)
    requires FromStart(states, events) && i < |events| && Releases(states[i], events[i], states[i + 1])
    ensures exists k | 0 <= k <= i :: events[k] == Close
    ensures var conns := states[i + 1].conns; forall c | c in conns :: conns[c].window == [] && conns[c].queue == []
  {
    hide Step, AllIdle;
    ClosedByClose(states, events, i + 1);
    AllQuietIsIdle(states[i + 1]);
  }

  // One connection with one message unacknowledged
  lemma OneWrite(p: Params, addr: Addr) returns (s0: ServerState, s1: ServerState, s2: ServerState)
    ensures s0 == Initial(p) && Step(s0, Connect(addr, 0), s1) && Step(s1, Send(1, []), s2)
    ensures s1.conns.Keys == s2.conns.Keys == {1} && !s1.isClosed && !Quiet(s2.conns[1])
    ensures s2 == s0.(conns := s2.conns, nextId := 2)
    ensures s2.conns[1].idle == 0 && s2.conns[1].outOfOrder == []
  {
    hide SendArm;
    var r1 := Opened(addr, 0);
    var r2 := SendArm(p, 1, r1, []);
    SentIsNotQuiet(p, 1, r1, []);
    SentStaysSilent(p, r1);
    s0 := Initial(p);
    s1 := s0.(conns := map[1 := r1], nextId := 2);
    s2 := s1.(conns := map[1 := r2]);
    assert OnConnect(s0, addr, 0) == s1;
    assert OnSend(s1, 1, []) == s2;
  }

  /** Such an epoch happens: after one Write the client falls silent, and Close is called before the epoch that ends its
      connection. Nothing is left, and the Close has not been released. */
  lemma CloseCanBeMissed(p: Params, addr: Addr) returns (states: seq<ServerState>, events: seq<Event>)
    requires p.epochLimit == 1
    ensures FromStart(states, events) && |events| == 4 && states[0].params == p
    ensures events[2] == Close && states[4].isClosed && states[4].conns == map[]
    ensures forall k | 0 <= k < 4 :: !Releases(states[k], events[k], states[k + 1])
  {
    hide OnAck, OnCAck, OnData, OnTick, OnCloseConn, OnSend, OnConnect, MayDrop;
    var s0, s1, s2 := OneWrite(p, addr);
    var s3 := s2.(isClosed := true);
    var s4 := s3.(conns := map[], droppedId := Some(1));
    assert !AllIdle(s3) by {
      QuietIsIdle(s3.conns[1]);
    }
    EpochEnds(s3, 1);
    states, events := [s0, s1, s2, s3, s4], [Connect(addr, 0), Send(1, []), Close, Tick(Some(1))];
  }

  /** And an epoch that ends a connection while its CloseConn is pending: the same with CloseConn in place of Close. */
  lemma CloseIdCanDangle(p: Params, addr: Addr) returns (states: seq<ServerState>, events: seq<Event>)
    requires p.epochLimit == 1
    ensures FromStart(states, events) && |events| == 4 && states[0].params == p && !CloseIdLive(states[4])
  {
    hide OnAck, OnCAck, OnData, OnTick, OnSend, OnConnect, MayDrop;
    var s0, s1, s2 := OneWrite(p, addr);
    var s3 := s2.(closeId := 1);
    var s4 := s3.(conns := map[], droppedId := Some(1));
    QuietIsIdle(s2.conns[1]);
    EpochEnds(s3, 1);
    states, events := [s0, s1, s2, s3, s4], [Connect(addr, 0), Send(1, []), CloseConn(1), Tick(Some(1))];
  }

  lemma SentStaysSilent(p: Params, r: ServerConn)
    ensures var q := SendArm(p, 1, r, []);
            q.idle == r.idle && q.outOfOrder == r.outOfOrder && q.addr == r.addr
  {
  }

  // The only connection is lost.
  lemma EpochEnds(s: ServerState, c: int)
    requires s.conns.Keys == {c} && s.params.epochLimit == 1 && s.droppedId.None? && s.readList == []
    requires s.conns[c].idle == 0 && s.conns[c].outOfOrder == []
    ensures MayDrop(s, Some(c)) && OnTick(s, Some(c)) == s.(conns := map[], droppedId := Some(c))
  {
    assert AgedOut(s, Some(c)).conns == map[];
  }
}
