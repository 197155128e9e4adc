/**
 When the reference link retransmits, sends heartbeats and regards its peer as lost, over whole runs of one end,
 whatever arrives and in whatever order.
 */
module ReferenceSchedule {
  import opened Messages
  import opened Backoff
  import opened DataFilter
  import opened Reference

  /** Whatever arrives moves the clock of the last arrival. A data message that is too short goes no further (at the
      server it does not even do that: there this event does not occur); one cut to its size reaches the link,
      whether its checksum fits or not. */
  datatype Event =
    | Write(payload: Payload)
    | GetAck(n: int)
    | GetCAck(n: int)
    | GetConnect
    | GetFrame(frame: Frame)
    | GetTooShort
    | Read
    | Tick

  ghost predicate Enabled(s: RefState, e: Event) {
    match e
    case Write(_) => !Lost(s)
    case Read => s.readQueue != []
    case _ => true
  }

  function After(s: RefState, e: Event): RefState
    requires Enabled(s, e)
  {
    match e
    case Write(p) => OnWrite(s, p)
    case GetAck(n) => OnAck(Heard(s), n)
    case GetCAck(n) => OnCAck(Heard(s), n)
    case GetConnect => Heard(s).(heard := true)
    case GetFrame(f) => OnFrame(Heard(s), f)
    case GetTooShort => Heard(s)
    case Read => s.(readQueue := s.readQueue[1..])
    case Tick => OnTick(s)
  }

  ghost predicate IsRun(states: seq<RefState>, events: seq<Event>) {
    && |states| == |events| + 1
    && states[0] == Established(states[0].params, states[0].connId, states[0].nextSeqNum - 1)
    && forall i | 0 <= i < |events| :: Enabled(states[i], events[i]) && states[i + 1] == After(states[i], events[i])
  }

  // ---------- What one event keeps ----------

  // What sending leaves alone, and the timers it starts
  lemma {:induction false} ToSendTimers(s: RefState, n: int)
    requires WindowOk(s)
    ensures var r := ToSend(s);
            && WindowOk(r) && r.params == s.params && r.epoch == s.epoch && r.lastHeard == s.lastHeard
            && r.heard == s.heard
            && (n in s.pending ==> n in r.pending && TimerOf(r, n) == TimerOf(s, n))
            && (n in r.pending && n !in s.pending ==> TimerOf(r, n) == NewCountDown(s.params.maxBackOffInterval))
    decreases |s.unsent|
  {
    if GateOpen(s) {
      hide GateOpen, WindowOk;
      SendOldestKeepsWindow(s);
      OldestTimer(s, n);
      ToSendTimers(SendOldest(s), n);
    }
  }

  lemma OldestTimer(s: RefState, n: int)
    requires WindowOk(s) && s.unsent != []
    ensures var r := SendOldest(s);
            && (n in s.pending ==> n in r.pending && TimerOf(r, n) == TimerOf(s, n))
            && (n in r.pending && n !in s.pending ==> TimerOf(r, n) == NewCountDown(s.params.maxBackOffInterval))
  {
  }

  lemma {:induction false} DrainedKeepsRest(s: RefState)
    ensures Drained(s) == s.(readQueue := Drained(s).readQueue, early := Drained(s).early,
                             expected := Drained(s).expected)
    decreases |s.early|
  {
    if s.expected in s.early {
      FewerEarly(s.early, s.expected);
      DrainedKeepsRest(TakeNext(s));
    }
  }

  // What one event does to the window, the timer of a number still pending, and the counters
  ghost predicate StepOk(s: RefState, e: Event, r: RefState, n: int) {
    && WindowOk(r) && r.params == s.params
    && (n in r.pending ==>
          TimerOf(r, n) == if n !in s.pending then NewCountDown(s.params.maxBackOffInterval)
                           else if e.Tick? && !Lost(r) then CountDownTick(TimerOf(s, n), s.params.maxBackOffInterval)
                           else TimerOf(s, n))
    && r.epoch == s.epoch + (if e.Tick? then 1 else 0)
    && r.lastHeard == (if e.Write? || e.Read? || e.Tick? then s.lastHeard else s.epoch)
    && r.heard == (e.GetFrame? || e.GetConnect? || (!e.Tick? && s.heard))
  }

  lemma SendingStep(s: RefState, e: Event, d: RefState, n: int)
    requires WindowOk(s) && WindowOk(d) && d.params == s.params
    requires e.Write? || e.GetAck? || e.GetCAck?
    requires d.pending.Keys <= s.pending.Keys
    requires d.timers == s.timers && d.epoch == s.epoch && d.heard == s.heard
    requires d.lastHeard == if e.Write? then s.lastHeard else s.epoch
    requires n in ToSend(d).pending && n !in d.pending ==> n !in s.pending
    ensures StepOk(s, e, ToSend(d), n)
  {
    ToSendTimers(d, n);
  }

  lemma NeverPendingAgain(s: RefState, d: RefState, n: int)
    requires WindowOk(s) && WindowOk(d) && Front(d) == Front(s)
    ensures n in ToSend(d).pending && n !in d.pending ==> n !in s.pending
  {
    NewFromFront(d, n);
  }

  lemma WriteStep(s: RefState, p: Payload, n: int)
    requires WindowOk(s)
    ensures StepOk(s, Write(p), OnWrite(s, p), n)
  {
    hide ToSend;
    NeverPendingAgain(s, Queued(s, p), n);
    SendingStep(s, Write(p), Queued(s, p), n);
  }

  lemma AckStep(s: RefState, k: int, n: int)
    requires WindowOk(s)
    ensures StepOk(s, GetAck(k), OnAck(Heard(s), k), n)
  {
    hide ToSend;
    if k != 0 && k in s.pending {
      AckedKeepsWindow(Heard(s), k);
      NeverPendingAgain(s, Acked(Heard(s), k), n);
      SendingStep(s, GetAck(k), Acked(Heard(s), k), n);
    }
  }

  lemma CAckStep(s: RefState, k: int, n: int)
    requires WindowOk(s)
    ensures StepOk(s, GetCAck(k), OnCAck(Heard(s), k), n)
  {
    hide ToSend;
    if k != 0 && exists j | j in s.pending :: j <= k {
      CAckedKeepsWindow(Heard(s), k);
      NeverPendingAgain(s, CAcked(Heard(s), k), n);
      SendingStep(s, GetCAck(k), CAcked(Heard(s), k), n);
    }
  }

  lemma FrameStep(s: RefState, f: Frame, n: int)
    requires WindowOk(s)
    ensures StepOk(s, GetFrame(f), OnFrame(Heard(s), f), n)
  {
    hide Drained, Fits;
    DrainedKeepsRest(Stored(Heard(s), Content(f)));
  }

  lemma TickStep(s: RefState, n: int)
    requires WindowOk(s)
    ensures StepOk(s, Tick, OnTick(s), n)
  {
  }

  lemma EventStep(s: RefState, e: Event, n: int)
    requires WindowOk(s) && Enabled(s, e)
    ensures StepOk(s, e, After(s, e), n)
  {
    hide OnWrite, OnAck, OnCAck, OnFrame, OnTick;
    match e
    case Write(p) => WriteStep(s, p, n);
    case GetAck(k) => AckStep(s, k, n);
    case GetCAck(k) => CAckStep(s, k, n);
    case GetFrame(f) => FrameStep(s, f, n);
    case Tick => TickStep(s, n);
    case _ =>
  }

  // ---------- Runs ----------

  lemma {:induction false} WindowsStaySound(states: seq<RefState>, events: seq<Event>, i: nat)
    requires IsRun(states, events) && i < |states|
    ensures WindowOk(states[i]) && states[i].params == states[0].params
  {
    hide After, Enabled;
    if i > 0 {
      WindowsStaySound(states, events, i - 1);
      EventStep(states[i - 1], events[i - 1], 0);
    }
  }

  // ---------- When a payload waits ----------

  // In plain numbers: the oldest unsent payload lies a window or more past a pending number, or the window has all it
  // may have.
  ghost predicate Full(s: RefState) {
    || s.params.windowSize <= 0
    || (exists n | n in s.pending :: s.nextSeqNum - |s.unsent| >= n + s.params.windowSize)
    || |s.pending| >= s.params.maxUnackedMessages
  }

  ghost predicate Shut(s: RefState) {
    s.unsent != [] ==> Full(s)
  }

  lemma SendingShuts(s: RefState)
    requires WindowOk(s)
    ensures Shut(ToSend(s))
  {
    hide ToSend, WindowOk;
    var k := ToSendMoves(s);
  }

  lemma SameWindow(s: RefState, r: RefState)
    requires r.unsent == s.unsent && r.pending == s.pending && r.params == s.params && r.nextSeqNum == s.nextSeqNum
    ensures Shut(r) <==> Shut(s)
  {
  }

  lemma EventKeepsShut(s: RefState, e: Event)
    requires WindowOk(s) && Enabled(s, e) && Shut(s)
    ensures Shut(After(s, e))
  {
    hide ToSend, Full, Shut, Dropped, Drained, TooFarAhead, TickedTimers;
    match e
    case Write(p) => SendingShuts(Queued(s, p));
    case GetAck(k) =>
      SameWindow(s, Heard(s));
      AckedKeepsWindow(Heard(s), k);
      SendingShuts(Acked(Heard(s), k));
    case GetCAck(k) =>
      SameWindow(s, Heard(s));
      CAckedKeepsWindow(Heard(s), k);
      SendingShuts(CAcked(Heard(s), k));
    case GetFrame(f) =>
      DrainedKeepsRest(Stored(Heard(s), Content(f)));
      SameWindow(s, OnFrame(Heard(s), f));
    case _ => SameWindow(s, After(s, e));
  }

  lemma {:induction false} StaysShut(states: seq<RefState>, events: seq<Event>, i: nat)
    requires IsRun(states, events) && i < |states|
    ensures Shut(states[i])
  {
    hide After, Enabled, WindowOk;
    if i > 0 {
      StaysShut(states, events, i - 1);
      WindowsStaySound(states, events, i - 1);
      EventKeepsShut(states[i - 1], events[i - 1]);
    }
  }

  /** In every run: a payload waits only when its number lies WindowSize or more past a pending one, or when
      MaxUnackedMessages are pending. */
  lemma WaitsOnlyWhenFull(states: seq<RefState>, events: seq<Event>, i: nat)
    requires IsRun(states, events) && i < |states|
    ensures var s := states[i];
            s.unsent != [] ==>
              || s.params.windowSize <= 0
              || (exists n | n in s.pending :: s.nextSeqNum - |s.unsent| >= n + s.params.windowSize)
              || |s.pending| >= s.params.maxUnackedMessages
  {
    hide IsRun;
    StaysShut(states, events, i);
  }

  // ---------- Timers and counters ----------

  // In how many epochs with a live peer the number has been pending
  function TimerAge(states: seq<RefState>, events: seq<Event>, n: int, i: nat): nat
    requires i <= |events| && |states| == |events| + 1
  {
    if i == 0 || n !in states[i - 1].pending then 0
    else TimerAge(states, events, n, i - 1) + if events[i - 1].Tick? && !Lost(states[i]) then 1 else 0
  }

  /** In every run the countdown of each pending number is where the schedule puts it; by `SameFireTicks` that is the
      server's schedule. */
  lemma {:induction false} TimersFollowSchedule(states: seq<RefState>, events: seq<Event>, i: nat, n: int)
    requires IsRun(states, events) && i < |states| && n in states[i].pending
    ensures TimerOf(states[i], n)
         == CountDownAfter(TimerAge(states, events, n, i), states[0].params.maxBackOffInterval)
  {
    hide After, Enabled, WindowOk;
    if i > 0 {
      WindowsStaySound(states, events, i - 1);
      EventStep(states[i - 1], events[i - 1], n);
      if n in states[i - 1].pending {
        TimersFollowSchedule(states, events, i - 1, n);
      }
    }
  }

  lemma DueAtAge(states: seq<RefState>, events: seq<Event>, i: nat, n: int)
    requires IsRun(states, events) && i < |states| && n in states[i].pending
    requires 0 <= states[0].params.maxBackOffInterval
    ensures CountDownDue(TimerOf(states[i], n))
            <==> IsServerFireTick(TimerAge(states, events, n, i) + 1, states[0].params.maxBackOffInterval)
  {
    hide After, Enabled, IsServerFireTick;
    TimersFollowSchedule(states, events, i, n);
    SameFireTicks(TimerAge(states, events, n, i) + 1, states[0].params.maxBackOffInterval);
    ServerClosedForm(TimerAge(states, events, n, i) + 1, states[0].params.maxBackOffInterval);
  }

  /** So an epoch with a live peer sends again exactly the pending payloads whose age the server's closed form names,
      each under its own number, and an epoch with a lost one sends nothing. */
  lemma RetransmittedOnSchedule(states: seq<RefState>, events: seq<Event>, i: nat, m: Message)
    requires IsRun(states, events) && i < |events| && events[i].Tick?
    requires 0 <= states[0].params.maxBackOffInterval
    ensures m in (if Lost(states[i].(epoch := states[i].epoch + 1)) then {} else Due(states[i]))
            <==> && m.connId == states[i].connId
                 && m.seqNum in states[i].pending && states[i].pending[m.seqNum] == m.payload
                 && SilentEpochs(events, i) + 1 < states[i].params.epochLimit
                 && IsServerFireTick(TimerAge(states, events, m.seqNum, i) + 1, states[0].params.maxBackOffInterval)
  {
    hide After, Enabled, IsServerFireTick, TimerAge, SilentEpochs, CountDownDue, TimerOf;
    CountersMeanSilence(states, events, i);
    if m.seqNum in states[i].pending {
      DueAtAge(states, events, i, m.seqNum);
    }
    DueMeans(states[i], m);
  }

  lemma DueMeans(s: RefState, m: Message)
    ensures m in Due(s)
            <==> && m.connId == s.connId && m.seqNum in s.pending && s.pending[m.seqNum] == m.payload
                 && CountDownDue(TimerOf(s, m.seqNum))
  {
    hide CountDownDue, TimerOf;
    if m.connId == s.connId && m.seqNum in s.pending && s.pending[m.seqNum] == m.payload {
      assert m == Message(s.connId, m.seqNum, s.pending[m.seqNum]);
    }
  }

  // How many epochs have passed since anything arrived
  function SilentEpochs(events: seq<Event>, i: nat): nat
    requires i <= |events|
  {
    if i == 0 then 0
    else match events[i - 1]
      case Tick => SilentEpochs(events, i - 1) + 1
      case Write(_) => SilentEpochs(events, i - 1)
      case Read => SilentEpochs(events, i - 1)
      case _ => 0
  }

  // Whether a data message that was not too short, damaged or not, or a connection request arrived since the last epoch
  ghost predicate HeardSinceTick(events: seq<Event>, i: nat)
    requires i <= |events|
  {
    i > 0 && !events[i - 1].Tick?
    && (events[i - 1].GetFrame? || events[i - 1].GetConnect? || HeardSinceTick(events, i - 1))
  }

  /** The peer counts as lost exactly when nothing has arrived for EpochLimit epochs, and a heartbeat goes out exactly
      when no data message, damaged or not, and no connection request has reached the link since the epoch before. */
  lemma {:induction false} CountersMeanSilence(states: seq<RefState>, events: seq<Event>, i: nat)
    requires IsRun(states, events) && i < |states|
    ensures Lost(states[i]) <==> SilentEpochs(events, i) >= states[i].params.epochLimit
    ensures states[i].epoch - states[i].lastHeard == SilentEpochs(events, i)
    ensures states[i].heard <==> HeardSinceTick(events, i)
  {
    hide After, Enabled, WindowOk;
    if i > 0 {
      WindowsStaySound(states, events, i - 1);
      CountersMeanSilence(states, events, i - 1);
      EventStep(states[i - 1], events[i - 1], 0);
    }
  }
}
