/**
 When the LSP server retransmits, sends heartbeats and gives up: what its counters and timers mean over whole runs,
 whatever arrives and in whatever order.
 */
module ServerSchedule {
  import opened Messages
  import opened Backoff
  import opened ServerSide
  import opened ServerLoop
  import S = ServerSide

  // ---------- One connection in one step ----------

  // What an event does to the record of a connection that survives it
  function RowAfter(p: Params, c: int, r: ServerConn, e: Event): ServerConn {
    match e
    case Ack(d, n) => if d == c then AckArm(p, r, n) else r
    case CAck(d, n) => if d == c then CAckArm(p, r, n) else r
    case Data(d, m) => if d == c then DataArm(r, m) else r
    case Send(d, payload) => if d == c then SendArm(p, c, r, payload) else r
    case Tick(_) => Ticked(p, HeartbeatDone(Aged(r)))
    case _ => r
  }

  lemma SurvivorsRow(s: ServerState, e: Event, t: ServerState, c: int)
    requires TableOk(s) && Step(s, e, t) && c in s.conns && c in t.conns
    ensures t.params == s.params && t.conns[c] == RowAfter(s.params, c, s.conns[c], e)
  {
    hide AckArm, CAckArm, DataArm, SendArm, Ticked;
  }

  lemma NewcomersRow(s: ServerState, e: Event, t: ServerState, c: int)
    requires TableOk(s) && Step(s, e, t) && c !in s.conns && c in t.conns
    ensures t.params == s.params && e.Connect? && t.conns[c] == Opened(e.addr, e.isn)
  {
    hide AckArm, CAckArm, DataArm, SendArm, Ticked;
  }

  /** What each event leaves alone: only an epoch reports a loss, only Close closes, and so on. */
  lemma OthersUntouched(s: ServerState, e: Event, t: ServerState)
    requires Step(s, e, t)
    ensures t.params == s.params && (!e.Connect? ==> t.nextId == s.nextId)
    ensures !e.Data? && !e.ReadRequest? ==> t.readList == s.readList
    ensures !e.Data? && !e.ReadRequest? && !e.Take? ==> t.readMessages == s.readMessages
    ensures !e.Tick? && !e.TakeDropped? ==> t.droppedId == s.droppedId
    ensures !e.Ack? && !e.CAck? && !e.CloseConn? ==> t.closeId == s.closeId
    ensures t.isClosed == (s.isClosed || e.Close?)
  {
    hide AckArm, CAckArm, DataArm, SendArm, Ticked, MayDrop, AllAged;
  }

  // ---------- Transmit windows ----------

  ghost predicate RowOk(p: Params, r: ServerConn) {
    && SenderOk(r) && GateOk(p, r)
    && (ProperParams(p) ==> WithinLimits(p, r.window))
  }

  // Any acknowledgement may arrive, cumulative ones if they leave timers, window and queue in step.
  ghost predicate InStep(c: int, r: ServerConn, e: Event) {
    e.CAck? && e.connId == c ==> CAckInStep(r, e.seqNum)
  }

  lemma RowStaysOk(p: Params, c: int, r: ServerConn, e: Event)
    requires RowOk(p, r) && InStep(c, r, e)
    ensures RowOk(p, RowAfter(p, c, r, e))
  {
    hide SenderOk, GateOk, WithinLimits, AckArm, CAckArm, SendArm, Run, Rest;
    match e
    case Ack(d, n) =>
      AckKeepsSender(p, r, n);
      AckKeepsGate(p, r, n);
      if ProperParams(p) {
        AckKeepsLimits(p, r, n);
      }
    case CAck(d, n) =>
      if d == c {
        EmptiedIsOk(p, r, n);
      }
    case Send(d, payload) =>
      SendKeepsSender(p, c, r, payload);
    case Data(d, m) =>
      OtherHalfKeepsRow(p, r, DataArm(r, m));
    case Tick(_) =>
      OtherHalfKeepsRow(p, r, HeartbeatDone(Aged(r)));
      TickKeepsSender(p, HeartbeatDone(Aged(r)));
      TickedKeepsRest(p, HeartbeatDone(Aged(r)));
    case _ =>
  }

  lemma EmptiedIsOk(p: Params, r: ServerConn, n: int)
    requires RowOk(p, r) && CAckInStep(r, n)
    ensures RowOk(p, CAckArm(p, r, n))
  {
    CAckInStepEmpties(p, r, n);
    CAckKeepsSenderIff(p, r, n);
  }

  lemma OtherHalfKeepsRow(p: Params, r: ServerConn, q: ServerConn)
    requires RowOk(p, r) && q.window == r.window && q.queue == r.queue && q.timers == r.timers
    requires q.serverSeq == r.serverSeq
    ensures RowOk(p, q)
  {
  }

  lemma TickedKeepsRest(p: Params, r: ServerConn)
    requires RowOk(p, r)
    ensures GateOk(p, Ticked(p, r)) && (ProperParams(p) ==> WithinLimits(p, Ticked(p, r).window))
  {
  }

  lemma OpenedIsOk(p: Params, addr: Addr, isn: int)
    ensures RowOk(p, Opened(addr, isn))
  {
  }

  ghost predicate FromStart(states: seq<ServerState>, events: seq<Event>) {
    IsRun(states, events) && states[0] == Initial(states[0].params)
  }

  // Up to state i, the cumulative acknowledgements of connection c were in step.
  ghost predicate InStepUpTo(states: seq<ServerState>, events: seq<Event>, c: int, i: nat)
    requires i <= |events| && |states| == |events| + 1
  {
    forall k | 0 <= k < i && c in states[k].conns :: InStep(c, states[k].conns[c], events[k])
  }

  lemma {:induction false} RowsStayOk(states: seq<ServerState>, events: seq<Event>, i: nat, c: int)
    requires FromStart(states, events) && i < |states| && c in states[i].conns && InStepUpTo(states, events, c, i)
    ensures RowOk(states[i].params, states[i].conns[c])
    decreases i
  {
    hide RowOk, RowAfter, Step, TableOk, TableGrows;
    if i > 0 {
      var s, t := states[i - 1], states[i];
      RunKeepsTable(states, events, i - 1, i - 1);
      if c in s.conns {
        RowsStayOk(states, events, i - 1, c);
        assert InStep(c, s.conns[c], events[i - 1]);
        SurvivorsRow(s, events[i - 1], t, c);
        RowStaysOk(s.params, c, s.conns[c], events[i - 1]);
      } else {
        NewcomersRow(s, events[i - 1], t, c);
        OpenedIsOk(t.params, events[i - 1].addr, events[i - 1].isn);
      }
    }
  }

  /** In every run, whatever acknowledgements arrive: the transmit window ascends and keeps both limits, its timers are
      exactly its numbers, and a message waits only when the window is full: it lies WindowSize or more past the first
      message, or the window has MaxUnackedMessages. */
  lemma WindowsStaySound(states: seq<ServerState>, events: seq<Event>, i: nat, c: int)
    requires FromStart(states, events) && i < |states| && c in states[i].conns && InStepUpTo(states, events, c, i)
    ensures var p, r := states[i].params, states[i].conns[c];
            && Ascending(r.window + r.queue) && r.timers.Keys == SeqNums(r.window)
            && (r.queue != [] ==>
                  && r.window != []
                  && (|| r.queue[0].seqNum >= r.window[0].seqNum + p.windowSize
                      || |r.window| >= p.maxUnackedMessages))
            && (p.windowSize >= 1 && p.maxUnackedMessages >= 1 ==>
                  && |r.window| <= p.maxUnackedMessages
                  && (r.window != [] ==> r.window[|r.window| - 1].seqNum < r.window[0].seqNum + p.windowSize))
  {
    hide FromStart, InStepUpTo, Ascending;
    RowsStayOk(states, events, i, c);
  }

  /** A reachable state in which a cumulative acknowledgement costs a message its timer: two Writes after the
      connection request, then the acknowledgement of the first. */
  lemma CAckCanLoseTimer(p: Params, addr: Addr) returns (states: seq<ServerState>, events: seq<Event>)
    requires 2 <= p.windowSize && 2 <= p.maxUnackedMessages
    ensures FromStart(states, events) && states[0].params == p && 1 in states[|events|].conns
    ensures var r := states[|events|].conns[1];
            && r.window == [Message(1, 1, [])] + [Message(1, 2, [])] && r.queue == []
            && SenderOk(r) && !SenderOk(CAckArm(p, r, 1))
  {
    hide SenderOk, GateOk, CAckArm, SendArm;
    var s0 := Initial(p);
    var r1 := Opened(addr, 0);
    var r2 := SendArm(p, 1, r1, []);
    var r3 := SendArm(p, 1, r2, []);
    TwoWrites(p, r1);
    var s1 := s0.(conns := map[1 := r1], nextId := 2);
    var s2, s3 := s1.(conns := map[1 := r2]), s1.(conns := map[1 := r3]);
    assert OnConnect(s0, addr, 0) == s1;
    assert OnSend(s1, 1, []) == s2 && OnSend(s2, 1, []) == s3;
    states, events := [s0, s1, s2, s3], [Connect(addr, 0), Send(1, []), Send(1, [])];
    CAckKeepsSenderIff(p, r3, 1);
  }

  lemma TwoWrites(p: Params, r: ServerConn)
    requires 2 <= p.windowSize && 2 <= p.maxUnackedMessages && r == Opened(r.addr, 0)
    ensures var q := SendArm(p, 1, SendArm(p, 1, r, []), []);
            && q.window == [Message(1, 1, [])] + [Message(1, 2, [])] && q.queue == []
            && SenderOk(q) && GateOk(p, q)
  {
    hide SendArm, WithinLimits;
    OpenedIsOk(p, r.addr, 0);
    SendArmShape(p, 1, r, []);
    SendKeepsSender(p, 1, r, []);
    var r2 := SendArm(p, 1, r, []);
    assert r2.window == [Message(1, 1, [])];
    SendArmShape(p, 1, r2, []);
    SendKeepsSender(p, 1, r2, []);
  }

  // ---------- Timers ----------

  // The messages an event puts into the window of connection c, which starts their timers
  function Started(p: Params, c: int, r: ServerConn, e: Event): seq<Message> {
    match e
    case Ack(d, n) => if d == c then AckSends(p, r, n) else []
    case CAck(d, n) => if d == c then CAckSends(p, r, n) else []
    case Send(d, payload) => if d == c then SendSends(p, c, r, payload) else []
    case _ => []
  }

  // How many epochs have passed since message n of connection c was put into its window
  function TimerAge(states: seq<ServerState>, events: seq<Event>, c: int, n: int, i: nat): nat
    requires i <= |events| && |states| == |events| + 1
  {
    if i == 0 || c !in states[i - 1].conns || n !in states[i - 1].conns[c].timers then 0
    else if n in SeqNums(Started(states[i - 1].params, c, states[i - 1].conns[c], events[i - 1])) then 0
    else TimerAge(states, events, c, n, i - 1) + if events[i - 1].Tick? then 1 else 0
  }

  lemma RowTimers(p: Params, c: int, r: ServerConn, e: Event, n: int)
    requires n in RowAfter(p, c, r, e).timers
    ensures n in r.timers || n in SeqNums(Started(p, c, r, e))
    ensures RowAfter(p, c, r, e).timers[n].timer
         == if n in SeqNums(Started(p, c, r, e)) then ServerTimer(0, 0, 0)
            else if e.Tick? then ServerTick(r.timers[n].timer, p.maxBackOffInterval)
            else r.timers[n].timer
  {
    hide Promotable, Extended, WithoutAll, S.Started;
    match e
    case Ack(d, k) => StartedHolds(Acked(r, k).timers, AckSends(p, r, k));
    case CAck(d, k) => StartedHolds(r.timers - SeqNums(r.window), CAckSends(p, r, k));
    case _ =>
  }

  /** In every run, whatever arrives, each timer is where the retransmission schedule puts it after as many epochs as
      have passed since its message was put into the window. */
  lemma {:induction false} TimersFollowSchedule(states: seq<ServerState>, events: seq<Event>, i: nat, c: int, n: int)
    requires FromStart(states, events) && i < |states| && c in states[i].conns && n in states[i].conns[c].timers
    ensures states[i].conns[c].timers[n].timer
         == ServerAfter(TimerAge(states, events, c, n, i), states[i].params.maxBackOffInterval)
    decreases i
  {
    hide RowAfter, Step, TableOk, TableGrows, Started;
    if i > 0 {
      var s, t := states[i - 1], states[i];
      RunKeepsTable(states, events, i - 1, i - 1);
      if c in s.conns {
        SurvivorsRow(s, events[i - 1], t, c);
        RowTimers(s.params, c, s.conns[c], events[i - 1], n);
        if n in s.conns[c].timers {
          TimersFollowSchedule(states, events, i - 1, c, n);
        }
      } else {
        NewcomersRow(s, events[i - 1], t, c);
      }
    }
  }

  lemma StartedFrom(p: Params, c: int, r: ServerConn, e: Event)
    ensures forall m | m in Started(p, c, r, e) :: m in r.queue || m.seqNum == r.serverSeq
  {
    hide Promotable, Without, After;
    match e
    case Ack(d, k) => PromotableFrom(p, Acked(r, k).window, r.queue);
    case CAck(d, k) => PromotableFrom(p, After(r.window, k), r.queue);
    case _ =>
  }

  /** In step, no timer is ever started again while it runs, so its age is the time its message has been
      unacknowledged. */
  lemma NeverRestarted(p: Params, c: int, r: ServerConn, e: Event, n: int)
    requires SenderOk(r) && n in r.timers
    ensures n !in SeqNums(Started(p, c, r, e))
  {
    hide Started, Ascending;
    StartedFrom(p, c, r, e);
    Parts(r.window, r.queue);
    assert n < r.serverSeq by {
      assert forall m | m in r.window :: m in r.window + r.queue;
    }
  }

  // ---------- Acknowledged for good ----------

  // Number n was used for a message that is no longer in the window or waiting.
  ghost predicate Gone(r: ServerConn, n: int) {
    n < r.serverSeq && n !in SeqNums(r.window) && n !in SeqNums(r.queue) && n !in r.timers
  }

  lemma GoneStays(p: Params, c: int, r: ServerConn, e: Event, n: int)
    requires Gone(r, n)
    ensures Gone(RowAfter(p, c, r, e), n)
  {
    hide Promotable, Extended, WithoutAll, S.Started, SortBySeqNum, Run, Rest;
    match e
    case Ack(d, k) =>
      var ms := Promotable(p, Acked(r, k).window, r.queue);
      WithoutHolds(r.window, k);
      PromotableFrom(p, Acked(r, k).window, r.queue);
      ExtendedHolds(Acked(r, k).window, ms);
      WithoutAllHolds(r.queue, ms);
      StartedHolds(Acked(r, k).timers, ms);
    case CAck(d, k) =>
      var ms := CAckSends(p, r, k);
      PromotableFrom(p, After(r.window, k), r.queue);
      ExtendedHolds(After(r.window, k), ms);
      StartedHolds(r.timers - SeqNums(r.window), ms);
    case Send(d, payload) =>
      var m := Message(c, r.serverSeq, payload);
      SortKeeps(r.window + [m]);
      SortKeeps(r.queue + [m]);
    case _ =>
  }

  ghost predicate Acknowledges(e: Event, c: int, n: int) {
    || (e.Ack? && e.connId == c && e.seqNum == n)
    || (e.CAck? && e.connId == c && n <= e.seqNum)
  }

  lemma AckedLeaves(window: seq<Message>, queue: seq<Message>, n: int)
    requires Ascending(window + queue) && n in SeqNums(window)
    ensures forall m | m in Without(window, n) || m in queue :: m.seqNum != n
    ensures Ascending(Without(window, n) + queue)
  {
    Parts(window, queue);
    WithoutRemoves(window, n);
    ShorterWindow(window, Without(window, n), queue);
  }

  lemma AckEnds(p: Params, r: ServerConn, n: int)
    requires SenderOk(r) && n in r.timers
    ensures Gone(AckArm(p, r, n), n)
  {
    hide Promotable, Extended, WithoutAll, S.Started, Ascending, Without;
    assert n < r.serverSeq by {
      assert forall m | m in r.window :: m in r.window + r.queue;
    }
    AckedLeaves(r.window, r.queue, n);
    var k := PromotedShape(p, Acked(r, n));
    AckKeepsSender(p, r, n);
  }

  lemma AckedIsGone(p: Params, c: int, r: ServerConn, e: Event, n: int)
    requires RowOk(p, r) && InStep(c, r, e) && n in r.timers && Acknowledges(e, c, n)
    ensures Gone(RowAfter(p, c, r, e), n)
  {
    hide AckArm, CAckArm, Ascending, GateOk, WithinLimits;
    if e.Ack? {
      AckEnds(p, r, n);
    } else {
      assert forall m | m in r.window :: m in r.window + r.queue;
      CAckInStepEmpties(p, r, e.seqNum);
    }
  }

  /** Over runs: a message once acknowledged never has a timer again, so it is never retransmitted. */
  lemma {:induction false} AckedForGood(states: seq<ServerState>, events: seq<Event>, i: nat, j: nat, c: int, n: int)
    requires FromStart(states, events) && i < j < |states| && c in states[i].conns && c in states[j].conns
    requires InStepUpTo(states, events, c, i + 1)
    requires n in states[i].conns[c].timers && Acknowledges(events[i], c, n)
    ensures Gone(states[j].conns[c], n)
    decreases j
  {
    hide RowOk, RowAfter, Step, Gone, InStep, Acknowledges;
    var s, t := states[j - 1], states[j];
    RunKeepsTable(states, events, i, j - 1);
    RunKeepsTable(states, events, j - 1, j);
    assert c in s.conns;
    SurvivorsRow(s, events[j - 1], t, c);
    if i == j - 1 {
      RowsStayOk(states, events, i, c);
      AckedIsGone(s.params, c, s.conns[c], events[i], n);
    } else {
      AckedForGood(states, events, i, j - 1, c, n);
      GoneStays(s.params, c, s.conns[c], events[j - 1], n);
    }
  }

  // ---------- Schedule ----------

  lemma DueAtAge(states: seq<ServerState>, events: seq<Event>, i: nat, c: int, n: int)
    requires FromStart(states, events) && i < |states| && c in states[i].conns && n in states[i].conns[c].timers
    requires 0 <= states[i].params.maxBackOffInterval
    ensures ServerDue(states[i].conns[c].timers[n].timer)
            <==> IsServerFireTick(TimerAge(states, events, c, n, i) + 1, states[i].params.maxBackOffInterval)
  {
    TimersFollowSchedule(states, events, i, c, n);
    ServerClosedForm(TimerAge(states, events, c, n, i) + 1, states[i].params.maxBackOffInterval);
  }

  // Each timer has the message of its number.
  ghost predicate OwnMessages(timers: map<int, BackOffInfo>) {
    forall n | n in timers :: timers[n].message.seqNum == n
  }

  lemma RowKeepsMessages(p: Params, c: int, r: ServerConn, e: Event)
    requires OwnMessages(r.timers)
    ensures OwnMessages(RowAfter(p, c, r, e).timers)
  {
    hide Promotable, Extended, WithoutAll, S.Started;
    match e
    case Ack(d, k) => StartedHolds(Acked(r, k).timers, AckSends(p, r, k));
    case CAck(d, k) => StartedHolds(r.timers - SeqNums(r.window), CAckSends(p, r, k));
    case _ =>
  }

  lemma {:induction false} MessagesStayOwn(states: seq<ServerState>, events: seq<Event>, i: nat, c: int)
    requires FromStart(states, events) && i < |states| && c in states[i].conns
    ensures OwnMessages(states[i].conns[c].timers)
    decreases i
  {
    hide RowAfter, Step, TableOk, TableGrows;
    if i > 0 {
      var s, t := states[i - 1], states[i];
      RunKeepsTable(states, events, i - 1, i - 1);
      if c in s.conns {
        MessagesStayOwn(states, events, i - 1, c);
        SurvivorsRow(s, events[i - 1], t, c);
        RowKeepsMessages(s.params, c, s.conns[c], events[i - 1]);
      } else {
        NewcomersRow(s, events[i - 1], t, c);
      }
    }
  }

  // What the epoch sends for a connection that survives it: the message of every timer that fires.
  lemma SurvivorsSend(s: ServerState, dropped: Option<int>, c: int, resent: map<int, set<Message>>, m: Message)
    requires c in s.conns && c in OnTick(s, dropped).conns && OwnMessages(s.conns[c].timers)
    requires ResentFrom(s.params, Heartbeaten(AgedOut(s, dropped)).conns, resent)
    ensures c in resent
    ensures m in resent[c]
            <==> && m.seqNum in s.conns[c].timers && s.conns[c].timers[m.seqNum].message == m
                 && ServerDue(s.conns[c].timers[m.seqNum].timer)
  {
    var mid := Heartbeaten(AgedOut(s, dropped)).conns;
    assert c in mid && mid[c].timers == s.conns[c].timers;
    assert c in resent.Keys;
  }

  /** So an epoch sends again, for each connection that survives it, exactly the unacknowledged messages whose age the
      closed form names: that of their first, second, third, ... retransmission. `resent` is what the epoch sends. */
  lemma RetransmittedOnSchedule(states: seq<ServerState>, events: seq<Event>, i: nat, c: int,
                                resent: map<int, set<Message>>, m: Message)
    requires FromStart(states, events) && i < |events| && events[i].Tick?
    requires c in states[i].conns && c in states[i + 1].conns && 0 <= states[i].params.maxBackOffInterval
    requires ResentFrom(states[i].params, Heartbeaten(AgedOut(states[i], events[i].dropped)).conns, resent)
    ensures c in resent
    ensures m in resent[c]
            <==> && m.seqNum in states[i].conns[c].timers && states[i].conns[c].timers[m.seqNum].message == m
                 && IsServerFireTick(TimerAge(states, events, c, m.seqNum, i) + 1, states[i].params.maxBackOffInterval)
  {
    hide TimerAge, IsServerFireTick, ServerDue, ResentFrom, OwnMessages;
    assert Step(states[i], events[i], states[i + 1]);
    MessagesStayOwn(states, events, i, c);
    SurvivorsSend(states[i], events[i].dropped, c, resent, m);
    if m.seqNum in states[i].conns[c].timers {
      DueAtAge(states, events, i, c, m.seqNum);
    }
  }

  lemma {:induction false} TotalIsAge(n: nat, max: int)
    ensures ServerAfter(n, max).total == n
  {
    if n > 0 {
      TotalIsAge(n - 1, max);
    }
  }

  // ---------- Silence ----------

  // How many epochs have passed since the client was last heard of: through an acknowledgement or a data message
  function SilentEpochs(states: seq<ServerState>, events: seq<Event>, c: int, i: nat): nat
    requires i <= |events| && |states| == |events| + 1
  {
    if i == 0 || c !in states[i - 1].conns then 0
    else match events[i - 1]
      case Ack(d, _) => if d == c then 0 else SilentEpochs(states, events, c, i - 1)
      case CAck(d, _) => if d == c then 0 else SilentEpochs(states, events, c, i - 1)
      case Data(d, _) => if d == c then 0 else SilentEpochs(states, events, c, i - 1)
      case Tick(_) => SilentEpochs(states, events, c, i - 1) + 1
      case _ => SilentEpochs(states, events, c, i - 1)
  }

  // Whether a Write for the connection was transmitted at once since the last epoch
  ghost predicate SentSinceTick(states: seq<ServerState>, events: seq<Event>, c: int, i: nat)
    requires i <= |events| && |states| == |events| + 1
  {
    i > 0 && c in states[i - 1].conns && !events[i - 1].Tick?
    && ((events[i - 1].Send? && events[i - 1].connId == c
         && SendSends(states[i - 1].params, c, states[i - 1].conns[c], events[i - 1].payload) != [])
        || SentSinceTick(states, events, c, i - 1))
  }

  lemma RowCounters(p: Params, c: int, r: ServerConn, e: Event)
    ensures var q := RowAfter(p, c, r, e);
            && q.idle == (if (e.Ack? || e.CAck? || e.Data?) && e.connId == c then 0
                          else if e.Tick? then r.idle + 1 else r.idle)
            && q.sent == if e.Tick? then false
                         else r.sent || (e.Send? && e.connId == c && SendSends(p, c, r, e.payload) != [])
  {
  }

  /** The idle counter is the number of silent epochs, and a connection gets a heartbeat exactly when no Write of it
      was transmitted since the epoch before. */
  lemma {:induction false} CountersMeanSilence(states: seq<ServerState>, events: seq<Event>, i: nat, c: int)
    requires FromStart(states, events) && i < |states| && c in states[i].conns
    ensures states[i].conns[c].idle == SilentEpochs(states, events, c, i)
    ensures states[i].conns[c].sent <==> SentSinceTick(states, events, c, i)
    decreases i
  {
    hide RowAfter, Step, TableOk, TableGrows, SendSends;
    if i > 0 {
      var s, t := states[i - 1], states[i];
      RunKeepsTable(states, events, i - 1, i - 1);
      if c in s.conns {
        CountersMeanSilence(states, events, i - 1, c);
        SurvivorsRow(s, events[i - 1], t, c);
        RowCounters(s.params, c, s.conns[c], events[i - 1]);
      } else {
        NewcomersRow(s, events[i - 1], t, c);
      }
    }
  }

  /** An epoch ends a connection for one of two reasons and no other: it is the one whose loss is reported, which then
      has been silent for EpochLimit epochs with nothing unread or out of order; or one of its messages has been
      unacknowledged for exactly EpochLimit epochs. */
  lemma EndedForAReason(states: seq<ServerState>, events: seq<Event>, i: nat, c: int)
    requires FromStart(states, events) && i < |events| && events[i].Tick? && c in states[i].conns
    ensures c !in states[i + 1].conns
            <==> || events[i].dropped == Some(c)
                 || exists n | n in states[i].conns[c].timers ::
                      TimerAge(states, events, c, n, i) == states[i].params.epochLimit
    ensures events[i].dropped == Some(c) ==>
              && SilentEpochs(states, events, c, i) + 1 >= states[i].params.epochLimit
              && states[i].conns[c].outOfOrder == [] && forall m | m in states[i].readList :: m.connId != c
  {
    hide RowAfter, TimerAge, SilentEpochs;
    var s := states[i];
    CountersMeanSilence(states, events, i, c);
    assert Step(s, events[i], states[i + 1]);
    if events[i].dropped != Some(c) {
      EndedByExpiry(s, events[i].dropped, c);
      forall n | n in s.conns[c].timers
        ensures s.conns[c].timers[n].timer.total == TimerAge(states, events, c, n, i)
      {
        TimersFollowSchedule(states, events, i, c, n);
        TotalIsAge(TimerAge(states, events, c, n, i), s.params.maxBackOffInterval);
      }
    }
  }

  lemma DroppedWhenLost(s: ServerState, dropped: Option<int>)
    requires MayDrop(s, dropped)
    ensures dropped.Some? <==> s.droppedId.None? && exists c | c in s.conns :: Lost(s, c)
    ensures OnTick(s, dropped).droppedId == if dropped.Some? then dropped else s.droppedId
    ensures dropped.Some? ==> dropped.value in s.conns && dropped.value !in OnTick(s, dropped).conns
  {
  }

  /** Conversely an epoch reports a loss exactly when no report is waiting to be read and some connection has been
      silent for EpochLimit epochs with nothing unread or out of order; the report is the id of the connection that it
      ends. */
  lemma LossIsReported(states: seq<ServerState>, events: seq<Event>, i: nat)
    requires FromStart(states, events) && i < |events| && events[i].Tick?
    ensures events[i].dropped.Some?
            <==> && states[i].droppedId.None?
                 && exists c | c in states[i].conns ::
                      && SilentEpochs(states, events, c, i) + 1 >= states[i].params.epochLimit
                      && states[i].conns[c].outOfOrder == []
                      && forall m | m in states[i].readList :: m.connId != c
    ensures states[i + 1].droppedId == if events[i].dropped.Some? then events[i].dropped else states[i].droppedId
    ensures events[i].dropped.Some? ==>
              events[i].dropped.value in states[i].conns && events[i].dropped.value !in states[i + 1].conns
  {
    hide SilentEpochs, OnTick, MayDrop, Lost;
    var s := states[i];
    assert Step(s, events[i], states[i + 1]);
    DroppedWhenLost(s, events[i].dropped);
    forall c | c in s.conns
      ensures Lost(s, c)
              <==> && SilentEpochs(states, events, c, i) + 1 >= s.params.epochLimit
                   && s.conns[c].outOfOrder == [] && forall m | m in s.readList :: m.connId != c
    {
      CountersMeanSilence(states, events, i, c);
      LostMeans(s, c);
    }
  }

  lemma LostMeans(s: ServerState, c: int)
    requires c in s.conns
    ensures Lost(s, c)
            <==> && s.conns[c].idle + 1 >= s.params.epochLimit
                 && s.conns[c].outOfOrder == [] && forall m | m in s.readList :: m.connId != c
  {
  }

  lemma EndedByExpiry(s: ServerState, dropped: Option<int>, c: int)
    requires c in s.conns && dropped != Some(c)
    ensures c !in OnTick(s, dropped).conns <==> Expired(s.params, s.conns[c])
  {
    var mid := Heartbeaten(AgedOut(s, dropped));
    assert c in mid.conns && mid.conns[c].timers == s.conns[c].timers;
  }
}
