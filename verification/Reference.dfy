/**
 The link object of the reference implementation (`lsp_reference.go`, type `bxnzsdj`), which serves both ends of a
 connection. Its helper `kpgmmcbeep` returns 0 for every argument and is left out of the expressions it occurs in.
 */
module Reference {
  import opened Checksum
  import opened Messages
  import opened Backoff
  import opened DataFilter
  import opened MapLoops
  import opened Sorting

  datatype RefState = RefState(
    params: Params,
    connId: int,                       // rdcppgudji
    nextSeqNum: int,                   // hooppjkl
    unsent: seq<Payload>,              // ffieiqwlhhh
    pending: map<int, Payload>,        // qqbakktl
    timers: map<int, CountDown>,       // rrrrrqwrqrkk and ssssshhwhh
    expected: int,                     // bnmslkllh
    early: map<int, Payload>,          // aptnek
    readQueue: seq<Payload>,           // asdfghj
    heard: bool,                       // tttbejw
    epoch: int,                        // qbnwkal
    lastHeard: int)                    // wbjkdfjd

  // A link whose connection is established; data starts after the number of the connection request.
  function Established(params: Params, connId: int, isn: int): RefState {
    RefState(params, connId, isn + 1, [], map[], map[], isn + 1, map[], [], false, 0, 0)
  }

  lemma AlwaysZero(u: bv64, e: bv64)
    ensures (((u ^ u) | e) ^ e) + 1 != 5 && u ^ u == 0
  {
  }

  // jfkdl
  predicate Lost(s: RefState) {
    s.epoch - s.lastHeard >= s.params.epochLimit
  }

  // ---------- Sending ----------

  // The number of the oldest unsent payload
  function Front(s: RefState): int {
    s.nextSeqNum - |s.unsent|
  }

  // The oldest payload may go out: it lies less than one window past every pending number.
  predicate GateOpen(s: RefState) {
    && s.unsent != []
    && s.params.windowSize > 0 && (forall n | n in s.pending :: Front(s) < n + s.params.windowSize)
    && |s.pending| < s.params.maxUnackedMessages
  }

  function SendOldest(s: RefState): RefState
    requires s.unsent != []
  {
    s.(pending := s.pending[Front(s) := s.unsent[0]],
       timers := s.timers[Front(s) := NewCountDown(s.params.maxBackOffInterval)],
       unsent := s.unsent[1..])
  }

  function ToSend(s: RefState): (r: RefState)
    ensures |r.unsent| <= |s.unsent|
    decreases |s.unsent|
  {
    if GateOpen(s) then ToSend(SendOldest(s)) else s
  }

  // What is transmitted on the way from s to r: the oldest unsent payloads, numbered from the front.
  function Transmitted(s: RefState, r: RefState): (ms: seq<Message>)
    requires |r.unsent| <= |s.unsent|
    ensures |ms| == |s.unsent| - |r.unsent|
    ensures forall i | 0 <= i < |ms| :: ms[i] == Message(s.connId, Front(s) + i, s.unsent[i])
  {
    seq(|s.unsent| - |r.unsent|, i requires 0 <= i < |s.unsent| => Message(s.connId, Front(s) + i, s.unsent[i]))
  }

  function Queued(s: RefState, p: Payload): RefState {
    s.(unsent := s.unsent + [p], nextSeqNum := s.nextSeqNum + 1)
  }

  function OnWrite(s: RefState, p: Payload): RefState {
    ToSend(Queued(s, p))
  }

  function Heard(s: RefState): RefState {
    s.(lastHeard := s.epoch)
  }

  function Acked(s: RefState, n: int): RefState {
    s.(pending := s.pending - {n})
  }

  function OnAck(s: RefState, n: int): RefState {
    if n != 0 && n in s.pending then ToSend(Acked(s, n)) else s
  }

  function CAcked(s: RefState, n: int): RefState {
    s.(pending := map k | k in s.pending && k > n :: s.pending[k])
  }

  function OnCAck(s: RefState, n: int): RefState {
    if n != 0 && (exists k | k in s.pending :: k <= n) then ToSend(CAcked(s, n)) else s
  }

  // ---------- Receiving ----------

  predicate TooFarAhead(s: RefState, m: Message) {
    m.seqNum >= s.expected + s.params.windowSize
  }

  function TakeNext(s: RefState): RefState
    requires s.expected in s.early
  {
    s.(readQueue := s.readQueue + [s.early[s.expected]], early := s.early - {s.expected}, expected := s.expected + 1)
  }

  function Drained(s: RefState): RefState
    decreases |s.early|
  {
    if s.expected in s.early then
      FewerEarly(s.early, s.expected);
      Drained(TakeNext(s))
    else s
  }

  lemma FewerEarly(early: map<int, Payload>, n: int)
    requires n in early
    ensures |early - {n}| < |early|
  {
  }

  function Stored(s: RefState, m: Message): RefState {
    s.(heard := true, early := s.early[m.seqNum := m.payload])
  }

  function OnData(s: RefState, m: Message): RefState {
    if TooFarAhead(s, m) || m.seqNum < s.expected then s.(heard := true) else Drained(Stored(s, m))
  }

  // bvmndthe, on a data message cut to its size: the checksum is compared only inside the window.
  function OnFrame(s: RefState, f: Frame): RefState {
    if Dropped(s, f) then s.(heard := true) else OnData(s, Content(f))
  }

  function Content(f: Frame): Message {
    Message(f.connId, f.seqNum, f.payload)
  }

  // Neither stored nor acknowledged; but it was heard.
  predicate Dropped(s: RefState, f: Frame) {
    TooFarAhead(s, Content(f)) || !Fits(f)
  }

  // ---------- The epoch ----------

  // A missing entry of the timer maps reads as zero.
  function TimerOf(s: RefState, n: int): CountDown {
    if n in s.timers then s.timers[n] else CountDown(0, 0)
  }

  function TickedTimers(s: RefState): map<int, CountDown> {
    map n | n in s.timers.Keys + s.pending.Keys ::
      if n in s.pending then CountDownTick(TimerOf(s, n), s.params.maxBackOffInterval) else s.timers[n]
  }

  function OnTick(s: RefState): RefState {
    var t := s.(epoch := s.epoch + 1, heard := false);
    if Lost(t) then t else t.(timers := TickedTimers(s))
  }

  function Due(s: RefState): set<Message> {
    set n | n in s.pending && CountDownDue(TimerOf(s, n)) :: Message(s.connId, n, s.pending[n])
  }

  // ---------- What sending keeps ----------

  // The numbers pending fit into one window, within the limit, and all precede the front.
  ghost predicate WindowOk(s: RefState) {
    && (forall n | n in s.pending :: n < Front(s))
    && (forall n, k | n in s.pending && k in s.pending :: n < k + s.params.windowSize)
    && (s.pending != map[] ==> |s.pending| <= s.params.maxUnackedMessages)
    && s.pending.Keys <= s.timers.Keys
  }

  lemma SendOldestKeepsWindow(s: RefState)
    requires WindowOk(s) && GateOpen(s)
    ensures WindowOk(SendOldest(s))
    ensures Front(SendOldest(s)) == Front(s) + 1
  {
  }

  // The first k unsent payloads have become pending.
  function Moved(s: RefState, k: nat): RefState
    requires k <= |s.unsent|
    decreases k
  {
    if k == 0 then s else Moved(SendOldest(s), k - 1)
  }

  lemma {:induction false} ToSendMoves(s: RefState) returns (k: nat)
    requires WindowOk(s)
    ensures k <= |s.unsent| && ToSend(s) == Moved(s, k) && |ToSend(s).unsent| == |s.unsent| - k
    ensures WindowOk(ToSend(s)) && !GateOpen(ToSend(s))
    decreases |s.unsent|
  {
    if GateOpen(s) {
      SendOldestKeepsWindow(s);
      k := ToSendMoves(SendOldest(s));
      k := k + 1;
    } else {
      k := 0;
    }
  }

  // Numbers that become pending start at the front, which never moves back.
  lemma {:induction false} NewFromFront(s: RefState, n: int)
    requires WindowOk(s)
    ensures Front(s) <= Front(ToSend(s))
    ensures n in ToSend(s).pending && n !in s.pending ==> Front(s) <= n
    decreases |s.unsent|
  {
    if GateOpen(s) {
      SendOldestKeepsWindow(s);
      NewFromFront(SendOldest(s), n);
    }
  }

  // All numbers in use are positive.
  ghost predicate Numbered(s: RefState) {
    0 < Front(s) && forall n | n in s.pending :: 0 < n
  }

  lemma AckedKeepsWindow(s: RefState, n: int)
    requires WindowOk(s)
    ensures WindowOk(Acked(s, n))
  {
  }

  lemma CAckedKeepsWindow(s: RefState, n: int)
    requires WindowOk(s)
    ensures WindowOk(CAcked(s, n))
  {
    SubsetSize(CAcked(s, n).pending.Keys, s.pending.Keys);
  }

  // ---------- The class ----------

  // The smallest of the pending numbers and the front
  ghost predicate IsLeast(keys: set<int>, front: int, least: int) {
    && least <= front && (forall n | n in keys :: least <= n)
    && (least == front || least in keys)
  }

  // The gate needs to look at the least number only.
  lemma LeastDecidesGate(s: RefState, least: int)
    requires WindowOk(s) && IsLeast(s.pending.Keys, Front(s), least)
    ensures GateOpen(s) <==> |s.unsent| > 0 && Front(s) < least + s.params.windowSize
                             && |s.pending| < s.params.maxUnackedMessages
  {
  }

  lemma LeastStays(s: RefState, least: int)
    requires s.unsent != [] && IsLeast(s.pending.Keys, Front(s), least)
    ensures IsLeast(SendOldest(s).pending.Keys, Front(SendOldest(s)), least)
    ensures |SendOldest(s).unsent| < |s.unsent|
  {
  }

  lemma SendOldestTransmits(start: RefState, s: RefState, k: nat)
    requires k < |start.unsent| && s.unsent == start.unsent[k..]
    requires s.connId == start.connId && s.nextSeqNum == start.nextSeqNum
    ensures s.unsent != [] && SendOldest(s).unsent == start.unsent[k + 1..]
    ensures Transmitted(start, SendOldest(s)) == Transmitted(start, s) + [Message(s.connId, Front(s), s.unsent[0])]
  {
  }

  // The timers of numbers that are no longer pending stay as they are.
  lemma TimersDone(s: RefState)
    requires s.pending.Keys <= s.timers.Keys
    ensures HalfDone(s.timers, s.timers, s.pending.Keys, TickedTimers(s))
  {
  }

  class Link {
    const params: Params
    const connId: int
    var nextSeqNum: int
    var unsent: seq<Payload>
    var pending: map<int, Payload>
    var timers: map<int, CountDown>
    var expected: int
    var early: map<int, Payload>
    var readQueue: seq<Payload>
    var heard: bool
    var epoch: int
    var lastHeard: int

    ghost function State(): RefState
      reads this
    {
      RefState(params, connId, nextSeqNum, unsent, pending, timers, expected, early, readQueue, heard, epoch, lastHeard)
    }

    constructor (params: Params, connId: int, isn: int)
      ensures State() == Established(params, connId, isn)
    {
      this.params, this.connId := params, connId;
      nextSeqNum, unsent, pending, timers := isn + 1, [], map[], map[];
      expected, early, readQueue := isn + 1, map[], [];
      heard, epoch, lastHeard := false, 0, 0;
    }

    // The search at the head of ngkdlse and of the CAck branch
    method LeastPending() returns (least: int)
      requires 0 < nextSeqNum - |unsent| && forall n | n in pending :: 0 < n
      ensures IsLeast(pending.Keys, nextSeqNum - |unsent|, least)
    {
      least := nextSeqNum - |unsent|;
      var keys := pending.Keys;
      while exists n :: n in keys
        invariant keys <= pending.Keys && 0 < least <= nextSeqNum - |unsent|
        invariant forall n | n in pending && n !in keys :: least <= n
        invariant least == nextSeqNum - |unsent| || least in pending
        decreases keys
      {
        var n :| n in keys;
        keys := keys - {n};
        if n < least || least == 0 {
          least := n;
        }
      }
    }

    // One round of the loop of ngkdlse
    method Transmit() returns (message: Message)
      requires unsent != []
      modifies this`unsent, this`pending, this`timers
      ensures State() == SendOldest(old(State()))
      ensures message == Message(connId, Front(old(State())), old(unsent)[0])
    {
      var front := nextSeqNum - |unsent|;
      message := Message(connId, front, unsent[0]);
      pending := pending[front := unsent[0]];
      var interval := 1;
      if interval > params.maxBackOffInterval {
        interval := params.maxBackOffInterval;
      }
      timers := timers[front := CountDown(0, interval)];
      unsent := unsent[1..];
    }

    method SendQueued() returns (sent: seq<Message>)
      requires WindowOk(State()) && Numbered(State())
      modifies this`unsent, this`pending, this`timers
      ensures State() == ToSend(old(State())) && sent == Transmitted(old(State()), State())
    {
      hide GateOpen, SendOldest;
      ghost var start := State();
      var least := LeastPending();
      sent := [];
      while true
        invariant WindowOk(State()) && ToSend(State()) == ToSend(start)
        invariant IsLeast(pending.Keys, nextSeqNum - |unsent|, least)
        invariant |sent| <= |start.unsent| && unsent == start.unsent[|sent|..]
        invariant sent == Transmitted(start, State())
        decreases |unsent|
        modifies this`unsent, this`pending, this`timers
      {
        var front := nextSeqNum - |unsent|;
        LeastDecidesGate(State(), least);
        if !(|unsent| > 0 && front < least + params.windowSize && |pending| < params.maxUnackedMessages) {
          break;
        }
        if front < least {
          least := front;
        }
        SendOldestKeepsWindow(State());
        SendOldestTransmits(start, State(), |sent|);
        LeastStays(State(), least);
        var message := Transmit();
        sent := sent + [message];
      }
    }

    method HandleWrite(payload: Payload) returns (sent: seq<Message>)
      requires WindowOk(State()) && Numbered(State())
      modifies this
      ensures State() == OnWrite(old(State()), payload)
      ensures sent == Transmitted(Queued(old(State()), payload), State())
    {
      hide ToSend, Transmitted;
      unsent := unsent + [payload];
      nextSeqNum := nextSeqNum + 1;
      sent := SendQueued();
    }

    method HandleAck(n: int) returns (sent: seq<Message>)
      requires WindowOk(State()) && Numbered(State())
      modifies this
      ensures State() == OnAck(old(State()), n)
      ensures sent == Transmitted(old(State()), State())
    {
      hide WindowOk, ToSend, Transmitted;
      sent := [];
      if n != 0 && n in pending {
        AckedKeepsWindow(State(), n);
        pending := pending - {n};
        sent := SendQueued();
      }
    }

    // The loop of the CAck branch
    method RemoveThrough(least: int, n: int) returns (removed: bool)
      requires forall k | k in pending :: least <= k
      modifies this`pending
      ensures State() == CAcked(old(State()), n)
      ensures removed <==> exists k | k in old(pending) :: k <= n
    {
      removed := false;
      var i := least;
      ghost var before, want := pending, CAcked(State(), n).pending;
      while i <= n
        invariant least <= i && (if least <= n then i <= n + 1 else i == least)
        invariant forall k :: k in pending <==> k in before && (k < least || k >= i)
        invariant forall k | k in pending :: pending[k] == before[k]
        invariant removed <==> exists k | k in before :: k < i
        decreases n - i
      {
        if i in pending {
          removed := true;
          pending := pending - {i};
        }
        i := i + 1;
      }
      assert forall k :: k in pending <==> k in want;
      assert pending == want;
    }

    method HandleCAck(n: int) returns (sent: seq<Message>)
      requires WindowOk(State()) && Numbered(State())
      modifies this
      ensures State() == OnCAck(old(State()), n)
      ensures sent == Transmitted(old(State()), State())
    {
      hide WindowOk, ToSend, Transmitted;
      sent := [];
      if n == 0 {
        return;
      }
      ghost var s := State();
      CAckedKeepsWindow(s, n);
      var least := LeastPending();
      var removed := RemoveThrough(least, n);
      if removed {
        sent := SendQueued();
      } else {
        assert CAcked(s, n).pending == s.pending;
      }
    }

    // Qtbejekw with bvmndthe; None when the message is dropped without an acknowledgement
    method HandleData(f: Frame) returns (ack: Option<int>)
      modifies this
      ensures State() == OnFrame(old(State()), f)
      ensures ack == if f.seqNum >= old(expected) + params.windowSize || !Fits(f) then None else Some(f.seqNum)
    {
      hide Drained, CalculateChecksum;
      heard := true;
      if f.seqNum >= expected + params.windowSize {
        return None;
      }
      var checksum := ComputeChecksum(f.connId, f.seqNum, f.size, f.payload);
      if checksum != f.checksum {
        return None;
      }
      ack := Some(f.seqNum);
      if f.seqNum < expected {
        return;
      }
      early := early[f.seqNum := f.payload];
      Drain();
    }

    method Drain()
      modifies this`readQueue, this`early, this`expected
      ensures State() == Drained(old(State()))
    {
      while expected in early
        invariant Drained(State()) == Drained(old(State()))
        decreases |early|
        modifies this`readQueue, this`early, this`expected
      {
        FewerEarly(early, expected);
        TakeOne();
      }
    }

    method TakeOne()
      requires expected in early
      modifies this`readQueue, this`early, this`expected
      ensures State() == TakeNext(old(State()))
    {
      readQueue := readQueue + [early[expected]];
      early := early - {expected};
      expected := expected + 1;
    }

    // Odkejnfsa
    method Read() returns (payload: Payload)
      requires readQueue != []
      modifies this`readQueue
      ensures State() == old(State()).(readQueue := old(readQueue)[1..]) && payload == old(readQueue)[0]
    {
      payload := readQueue[0];
      readQueue := readQueue[1..];
    }

    // The retransmission loop of tyhdjska, which visits the pending numbers in no particular order
    method Retransmit() returns (resent: set<Message>)
      requires pending.Keys <= timers.Keys
      modifies this`timers
      ensures timers == TickedTimers(old(State())) && resent == Due(old(State()))
    {
      hide HalfDone;
      resent := {};
      ghost var before, after := timers, TickedTimers(State());
      var keys := pending.Keys;
      TimersDone(State());
      while exists n :: n in keys
        invariant keys <= pending.Keys && HalfDone(before, timers, keys, after)
        invariant resent == set n | n in pending && n !in keys && CountDownDue(before[n]) ::
                              Message(connId, n, pending[n])
        decreases keys
      {
        var n :| n in keys;
        OneMoreDone(before, timers, keys, after, n);
        keys := keys - {n};
        var timer := timers[n];
        if timer.remaining == 0 {
          resent := resent + {Message(connId, n, pending[n])};
          var interval := timer.interval + timer.interval;
          if interval > params.maxBackOffInterval {
            interval := params.maxBackOffInterval;
          }
          timers := timers[n := CountDown(timer.interval, interval)];
        } else {
          timers := timers[n := timer.(remaining := timer.remaining - 1)];
        }
      }
      AllDone(before, timers, keys, after);
    }

    method HandleTick() returns (resent: set<Message>, heartbeat: bool)
      requires pending.Keys <= timers.Keys
      modifies this
      ensures State() == OnTick(old(State()))
      ensures var lost := Lost(old(State()).(epoch := old(epoch) + 1));
              && resent == (if lost then {} else Due(old(State())))
              && heartbeat == (!lost && !old(heard))
    {
      epoch := epoch + 1;
      resent, heartbeat := {}, false;
      if !(epoch - lastHeard >= params.epochLimit) {
        resent := Retransmit();
        heartbeat := !heard;
      }
      heard := false;
    }
  }
}
