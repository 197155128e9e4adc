/**
 Two reference links with the same window size at the two ends of a connection, over a network that loses, delays,
 repeats, reorders and damages packets. The receiver drops what lies too far ahead of it without acknowledging it;
 in no run is that ever a message of its peer.
 */
module ReferenceRuns {
  import opened Messages
  import opened Streams
  import opened Reference
  import opened DataFilter
  import Links

  // What one end sends to the other: everything it ever sent, and everything sent back in acknowledgement.
  datatype Wire = Wire(
    first: int,               // the number of the first data message
    data: set<Message>,
    acks: set<int>,
    wrote: seq<Payload>,
    read: seq<Payload>)       // returned by Read at the far end

  // One end, the other, and the wires that lead out of the first and into it
  datatype Ends = Ends(near: RefState, far: RefState, out: Wire, back: Wire, nearIsClient: bool)

  function Flip(x: Ends): Ends {
    Ends(x.far, x.near, x.back, x.out, !x.nearIsClient)
  }

  function Opened(isn: int): Wire {
    Wire(isn + 1, {}, {isn}, [], [])
  }

  // The ends need to agree on the window size only.
  ghost predicate IsStart(x: Ends) {
    && 1 <= x.out.first && x.out == x.back == Opened(x.out.first - 1)
    && x.near == Established(x.near.params, x.near.connId, x.out.first - 1)
    && x.far == Established(x.far.params, x.near.connId, x.out.first - 1)
    && x.near.params.windowSize == x.far.params.windowSize
  }

  function HandedOver(far: RefState, w: Wire): seq<Payload> {
    w.read + far.readQueue
  }

  function Held(first: int, far: RefState): set<int> {
    Links.Numbers(first, far.expected) + far.early.Keys
  }

  function Waiting(c: RefState): set<int> {
    Links.Numbers(Front(c), c.nextSeqNum)
  }

  function Direction(near: RefState, far: RefState, w: Wire): Stream {
    Stream(near.connId, w.first, w.wrote, Waiting(near), near.pending.Keys, w.data, w.acks, Held(w.first, far),
           |HandedOver(far, w)|)
  }

  // ---------- Events ----------

  // The reference reads into a smaller buffer.
  const MAX_LENGTH := 1500

  datatype Action =
    | Write(payload: Payload)
    | GetAck(n: int)
    | GetCAck(n: int)
    | GetData(message: Message, fault: Fault, isNumber: bool)
    | Read
    | Tick

  datatype Event = AtNear(action: Action) | AtFar(action: Action)

  ghost predicate May(x: Ends, a: Action) {
    match a
    case Write(_) => !Lost(x.near)
    case GetAck(n) => n in x.out.acks
    case GetCAck(n) => forall k | x.out.first <= k <= n :: k in x.out.acks
    case GetData(m, _, _) => m in x.back.data && |m.payload| <= MAX_LENGTH
    case Read => x.near.readQueue != []
    case Tick => true
  }

  function Sent(w: Wire, ms: seq<Message>): Wire {
    w.(data := w.data + Elements(ms))
  }

  function Writes(x: Ends, p: Payload): Ends {
    var r := OnWrite(x.near, p);
    x.(near := r, out := Sent(x.out, Transmitted(Queued(x.near, p), r)).(wrote := x.out.wrote + [p]))
  }

  function GetsAck(x: Ends, n: int): Ends {
    var r := OnAck(Heard(x.near), n);
    x.(near := r, out := Sent(x.out, Transmitted(Heard(x.near), r)))
  }

  function GetsCAck(x: Ends, n: int): Ends {
    var r := OnCAck(Heard(x.near), n);
    x.(near := r, out := Sent(x.out, Transmitted(Heard(x.near), r)))
  }

  function GetsFrame(x: Ends, f: Frame): Ends {
    x.(near := OnFrame(Heard(x.near), f),
       back := x.back.(acks := if Dropped(x.near, f) then x.back.acks else x.back.acks + {f.seqNum}))
  }

  // The client notes that something arrived before it looks at it, the server only afterwards.
  function GetsTooShort(x: Ends): Ends {
    if x.nearIsClient then x.(near := Heard(x.near)) else x
  }

  function Reads(x: Ends): Ends
    requires x.near.readQueue != []
  {
    x.(near := x.near.(readQueue := x.near.readQueue[1..]),
       back := x.back.(read := x.back.read + [x.near.readQueue[0]]))
  }

  // Due messages go out again, and a heartbeat when no data was heard.
  function Ticks(x: Ends): Ends {
    var lost := Lost(x.near.(epoch := x.near.epoch + 1));
    x.(near := OnTick(x.near),
       out := x.out.(data := x.out.data + if lost then {} else Due(x.near)),
       back := x.back.(acks := x.back.acks + if lost || x.near.heard then {} else {0}))
  }

  function Moves(x: Ends, a: Action): Ends
    requires May(x, a)
  {
    match a
    case Write(p) => Writes(x, p)
    case GetAck(n) => GetsAck(x, n)
    case GetCAck(n) => GetsCAck(x, n)
    case GetData(m, fault, isNumber) =>
      (match CutToSize(Tampered(NewData(m), fault, isNumber))
       case None => GetsTooShort(x)
       case Some(f) => GetsFrame(x, f))
    case Read => Reads(x)
    case Tick => Ticks(x)
  }

  ghost predicate Enabled(x: Ends, e: Event) {
    match e
    case AtNear(a) => May(x, a)
    case AtFar(a) => May(Flip(x), a)
  }

  function After(x: Ends, e: Event): Ends
    requires Enabled(x, e)
  {
    match e
    case AtNear(a) => Moves(x, a)
    case AtFar(a) => Flip(Moves(Flip(x), a))
  }

  ghost predicate IsRun(states: seq<Ends>, events: seq<Event>) {
    && |states| == |events| + 1
    && forall i | 0 <= i < |events| :: Enabled(states[i], events[i]) && states[i + 1] == After(states[i], events[i])
  }

  // ---------- The invariant ----------

  ghost predicate Sender(c: RefState, s: Stream) {
    && WindowOk(c) && Numbered(c)
    && c.connId == s.connId && c.nextSeqNum == s.End()
    && |c.unsent| <= |s.written| && c.unsent == s.written[|s.written| - |c.unsent|..]
    && s.waiting == Waiting(c) && s.pending == c.pending.Keys
    && forall n | n in c.pending :: s.first <= n < s.End() && c.pending[n] == s.written[n - s.first]
                                    && Message(c.connId, n, c.pending[n]) in s.data
  }

  // The numbers below the expected one have been handed over; what arrived early is not below it.
  ghost predicate Draining(c: RefState, s: Stream, handedOver: seq<Payload>) {
    && c.expected == s.first + s.delivered
    && |handedOver| == s.delivered && handedOver <= s.written
    && s.held == Held(s.first, c)
    && forall n | n in c.early :: c.expected <= n < s.first + |s.written| && c.early[n] == s.written[n - s.first]
  }

  // Between events the whole contiguous run has been handed over.
  ghost predicate Receiver(c: RefState, s: Stream, handedOver: seq<Payload>) {
    Draining(c, s, handedOver) && c.expected !in c.early
  }

  // Nothing that was ever sent lies beyond the receiver's window.
  ghost predicate InWindow(s: Stream, windowSize: int) {
    forall m | m in s.data :: m.seqNum < s.first + s.delivered + windowSize
  }

  ghost predicate WireOk(near: RefState, far: RefState, w: Wire) {
    var s := Direction(near, far, w);
    && 0 < w.first && s.Inv() && Sender(near, s) && Receiver(far, s, HandedOver(far, w))
    && InWindow(s, far.params.windowSize)
  }

  ghost predicate Inv(x: Ends) {
    && x.near.params.windowSize == x.far.params.windowSize
    && WireOk(x.near, x.far, x.out) && WireOk(x.far, x.near, x.back)
  }

  lemma StartInv(x: Ends)
    requires IsStart(x)
    ensures Inv(x)
  {
  }

  // ---------- Sending ----------

  function OldestSent(c: RefState, s: Stream): Stream
    requires c.unsent != []
  {
    var d, m := SendOldest(c), Message(c.connId, Front(c), c.unsent[0]);
    s.(waiting := Waiting(d), pending := d.pending.Keys, data := s.data + {m})
  }

  lemma OneIsSent(c: RefState, s: Stream)
    requires s.Inv() && Sender(c, s) && GateOpen(c)
    ensures OldestSent(c, s).Inv() && Sender(SendOldest(c), OldestSent(c, s))
  {
    SendOldestKeepsWindow(c);
    OneIsPromoted(c, s);
    OneMorePending(c, s);
  }

  lemma OneIsPromoted(c: RefState, s: Stream)
    requires s.Inv() && Sender(c, s) && c.unsent != []
    ensures OldestSent(c, s).Inv()
  {
    var m, t := Message(c.connId, Front(c), c.unsent[0]), OldestSent(c, s);
    assert s.Genuine(m);
    s.SendKeepsInv(t.waiting, t.pending, [m]);
    assert Elements([m]) == {m};
    assert s.Send(t.waiting, t.pending, [m]) == t;
  }

  lemma OneMorePending(c: RefState, s: Stream)
    requires Sender(c, s) && c.unsent != [] && WindowOk(SendOldest(c))
    ensures Sender(SendOldest(c), OldestSent(c, s))
  {
    hide WindowOk;
    var d, t := SendOldest(c), OldestSent(c, s);
    assert d.unsent == t.written[|t.written| - |d.unsent|..];
    PendingAsWritten(c, s);
  }

  lemma PendingAsWritten(c: RefState, s: Stream)
    requires Sender(c, s) && c.unsent != []
    ensures var d, t := SendOldest(c), OldestSent(c, s);
            forall n | n in d.pending ::
              && t.first <= n < t.End() && d.pending[n] == t.written[n - t.first]
              && Message(d.connId, n, d.pending[n]) in t.data
  {
    hide WindowOk, Numbered;
    FrontIsNext(c, s);
  }

  // The oldest unsent payload is the one written under its number.
  lemma FrontIsNext(c: RefState, s: Stream)
    requires Sender(c, s) && c.unsent != []
    ensures s.first <= Front(c) < s.End() && c.unsent[0] == s.written[Front(c) - s.first]
  {
    hide WindowOk;
  }

  // ngkdlse acts on the stream as one promotion of what it transmits, all of it inside the receiver's window.
  lemma {:induction false} QueuedIsSent(c: RefState, s: Stream) returns (t: Stream)
    requires s.Inv() && Sender(c, s) && s.first + s.delivered !in s.held && InWindow(s, c.params.windowSize)
    ensures var r := ToSend(c);
            t == s.(waiting := Waiting(r), pending := r.pending.Keys, data := s.data + Elements(Transmitted(c, r)))
    ensures t.Inv() && Sender(ToSend(c), t) && InWindow(t, c.params.windowSize)
    decreases |c.unsent|
  {
    hide Stream.Inv, Sender, Elements, Transmitted, InWindow, Waiting;
    if GateOpen(c) {
      OneIsSent(c, s);
      SendsInWindow(c, s);
      OneMoreTransmitted(c, s.data);
      t := QueuedIsSent(SendOldest(c), OldestSent(c, s));
    } else {
      t := s;
      NothingMoreTransmitted(c, s);
    }
  }

  lemma NothingMoreTransmitted(c: RefState, s: Stream)
    requires Sender(c, s)
    ensures s == s.(waiting := Waiting(c), pending := c.pending.Keys, data := s.data + Elements(Transmitted(c, c)))
  {
  }

  lemma OneMoreTransmitted(c: RefState, data: set<Message>)
    requires GateOpen(c)
    ensures var m, d := Message(c.connId, Front(c), c.unsent[0]), SendOldest(c);
            data + Elements(Transmitted(c, ToSend(c))) == (data + {m}) + Elements(Transmitted(d, ToSend(d)))
  {
    hide Elements, Transmitted;
    var m, d := Message(c.connId, Front(c), c.unsent[0]), SendOldest(c);
    HeadTransmitted(c, ToSend(d));
    ElementsOfCons(m, Transmitted(d, ToSend(d)));
  }

  lemma HeadTransmitted(c: RefState, r: RefState)
    requires |r.unsent| < |c.unsent|
    ensures Transmitted(c, r) == [Message(c.connId, Front(c), c.unsent[0])] + Transmitted(SendOldest(c), r)
  {
  }

  lemma ElementsOfCons(m: Message, ms: seq<Message>)
    ensures Elements([m] + ms) == {m} + Elements(ms)
  {
  }

  lemma SendsInWindow(c: RefState, s: Stream)
    requires s.Inv() && Sender(c, s) && GateOpen(c) && s.first + s.delivered !in s.held
    requires InWindow(s, c.params.windowSize)
    ensures InWindow(OldestSent(c, s), c.params.windowSize)
  {
  }

  // Only the sending half of an end matters to its sender, only the receiving half to its receiver.
  ghost predicate SameSender(c: RefState, d: RefState) {
    && d.params == c.params && d.connId == c.connId && d.nextSeqNum == c.nextSeqNum && d.unsent == c.unsent
    && d.pending == c.pending && c.timers.Keys <= d.timers.Keys
  }

  ghost predicate SameReceiver(c: RefState, d: RefState) {
    && d.params == c.params && d.expected == c.expected && d.early == c.early && d.readQueue == c.readQueue
  }

  lemma {:induction false} ToSendKeepsReceiver(c: RefState)
    ensures SameReceiver(c, ToSend(c)) && ToSend(c).connId == c.connId
    decreases |c.unsent|
  {
    if GateOpen(c) {
      ToSendKeepsReceiver(SendOldest(c));
    }
  }

  // An end whose receiving half is untouched keeps the wire into it, and the other way round.
  lemma WireInKept(near: RefState, far: RefState, w: Wire, d: RefState)
    requires WireOk(near, far, w) && SameReceiver(far, d)
    ensures WireOk(near, d, w)
  {
    assert Direction(near, d, w) == Direction(near, far, w);
  }

  lemma WireOutKept(near: RefState, far: RefState, w: Wire, d: RefState)
    requires WireOk(near, far, w) && SameSender(near, d)
    ensures WireOk(d, far, w)
  {
    assert Direction(d, far, w) == Direction(near, far, w);
    SameSenderSends(near, d, Direction(near, far, w));
  }

  lemma SameSenderSends(c: RefState, d: RefState, s: Stream)
    requires Sender(c, s) && SameSender(c, d)
    ensures Sender(d, s)
  {
  }

  // A change of the sending half, then ngkdlse
  lemma SendingKeepsWire(near: RefState, far: RefState, w: Wire, c: RefState, u: Wire)
    requires WireOk(near, far, w) && c.params.windowSize == far.params.windowSize
    requires u == w.(wrote := u.wrote) && w.wrote <= u.wrote
    requires Direction(c, far, u).Inv() && Sender(c, Direction(c, far, u))
    ensures WireOk(ToSend(c), far, Sent(u, Transmitted(c, ToSend(c))))
  {
    hide Stream.Inv, Sender, Elements, Receiver, ToSend, Transmitted;
    NextIsMissing(far, Direction(near, far, w), HandedOver(far, w));
    var t := QueuedIsSent(c, Direction(c, far, u));
    ReceiverKept(far, Direction(near, far, w), t, HandedOver(far, w));
    ToSendKeepsReceiver(c);
    DirectionAfterSending(c, far, u, ToSend(c));
  }

  lemma DirectionAfterSending(c: RefState, far: RefState, u: Wire, r: RefState)
    requires |r.unsent| <= |c.unsent| && r.connId == c.connId
    ensures Direction(r, far, Sent(u, Transmitted(c, r)))
         == Direction(c, far, u).(waiting := Waiting(r), pending := r.pending.Keys,
                                  data := u.data + Elements(Transmitted(c, r)))
  {
  }

  lemma ReceiverKept(c: RefState, s: Stream, t: Stream, handedOver: seq<Payload>)
    requires Receiver(c, s, handedOver) && s.written <= t.written
    requires t.first == s.first && t.delivered == s.delivered && t.held == s.held
    ensures Receiver(c, t, handedOver)
  {
  }

  lemma NextIsMissing(c: RefState, s: Stream, handedOver: seq<Payload>)
    requires Receiver(c, s, handedOver)
    ensures s.first + s.delivered !in s.held
  {
  }

  lemma WriteKeepsWire(near: RefState, far: RefState, w: Wire, p: Payload)
    requires WireOk(near, far, w) && near.params.windowSize == far.params.windowSize
    ensures var r := OnWrite(near, p);
            WireOk(r, far, Sent(w, Transmitted(Queued(near, p), r)).(wrote := w.wrote + [p]))
  {
    var s, c, u := Direction(near, far, w), Queued(near, p), w.(wrote := w.wrote + [p]);
    s.WriteKeepsInv(p);
    assert Direction(c, far, u) == s.Write(p);
    QueuedSends(near, s, p);
    SendingKeepsWire(near, far, w, c, u);
  }

  lemma QueuedSends(c: RefState, s: Stream, p: Payload)
    requires Sender(c, s)
    ensures Sender(Queued(c, p), s.Write(p))
  {
    hide WindowOk;
    var d, t := Queued(c, p), s.Write(p);
    QueuedKeepsWindow(c, p);
    assert d.unsent == t.written[|t.written| - |d.unsent|..];
    assert Waiting(d) == Waiting(c) + {c.nextSeqNum};
  }

  lemma QueuedKeepsWindow(c: RefState, p: Payload)
    requires WindowOk(c)
    ensures WindowOk(Queued(c, p))
  {
  }

  function Retired(s: Stream, ns: set<int>): Stream {
    s.(pending := s.pending - ns)
  }

  lemma RetiredKeepsInv(s: Stream, ns: set<int>)
    requires s.Inv() && forall n | n in ns && n in s.pending :: n in s.held
    ensures Retired(s, ns).Inv()
  {
  }

  // Numbers that the receiver holds leave the pending map; c is the near end without them.
  lemma RetiredKeepsWire(near: RefState, far: RefState, w: Wire, c: RefState, ns: set<int>)
    requires WireOk(near, far, w) && near.params.windowSize == far.params.windowSize
    requires c == near.(pending := near.pending - ns, lastHeard := c.lastHeard) && WindowOk(c)
    requires forall n | n in ns && n in near.pending :: n in Held(w.first, far)
    ensures WireOk(ToSend(c), far, Sent(w, Transmitted(c, ToSend(c))))
  {
    hide Stream.Inv, Sender, Receiver, InWindow, WindowOk, Transmitted, ToSend, Elements;
    var s := Direction(near, far, w);
    RetiredKeepsInv(s, ns);
    RetiredDirection(near, far, w, c, ns);
    RetiredSends(near, s, c, ns);
    SendingKeepsWire(near, far, w, c, w);
  }

  lemma RetiredDirection(near: RefState, far: RefState, w: Wire, c: RefState, ns: set<int>)
    requires c == near.(pending := near.pending - ns, lastHeard := c.lastHeard)
    ensures Direction(c, far, w) == Retired(Direction(near, far, w), ns)
  {
  }

  lemma RetiredSends(near: RefState, s: Stream, c: RefState, ns: set<int>)
    requires Sender(near, s) && WindowOk(c)
    requires c == near.(pending := near.pending - ns, lastHeard := c.lastHeard)
    ensures Sender(c, Retired(s, ns))
  {
    hide WindowOk;
  }

  lemma AckKeepsWire(near: RefState, far: RefState, w: Wire, n: int)
    requires WireOk(near, far, w) && near.params.windowSize == far.params.windowSize && n in w.acks
    ensures var r := OnAck(Heard(near), n);
            WireOk(r, far, Sent(w, Transmitted(Heard(near), r)))
  {
    var c := Heard(near);
    if n != 0 && n in near.pending {
      AckedKeepsWindow(c, n);
      RetiredKeepsWire(near, far, w, Acked(c, n), {n});
      SameTransmitted(c, Acked(c, n), ToSend(Acked(c, n)));
    } else {
      NothingTransmitted(w, c);
      WireOutKept(near, far, w, c);
    }
  }

  lemma SameTransmitted(c: RefState, d: RefState, r: RefState)
    requires d.connId == c.connId && d.nextSeqNum == c.nextSeqNum && d.unsent == c.unsent
    requires |r.unsent| <= |c.unsent|
    ensures Transmitted(c, r) == Transmitted(d, r)
  {
  }

  lemma NothingTransmitted(w: Wire, c: RefState)
    ensures Sent(w, Transmitted(c, c)) == w
  {
  }

  lemma CAckKeepsWire(near: RefState, far: RefState, w: Wire, n: int)
    requires WireOk(near, far, w) && near.params.windowSize == far.params.windowSize
    requires forall k | w.first <= k <= n :: k in w.acks
    ensures var r := OnCAck(Heard(near), n);
            WireOk(r, far, Sent(w, Transmitted(Heard(near), r)))
  {
    hide WireOk, WindowOk, UpTo, CAcked, ToSend, Held, Transmitted;
    var c := Heard(near);
    if n != 0 && exists k | k in c.pending :: k <= n {
      CAckedIsHeld(near, far, w, n);
      CAckRetires(near, far, w, n, CAcked(c, n));
    } else {
      NothingTransmitted(w, c);
      WireOutKept(near, far, w, c);
    }
  }

  lemma CAckRetires(near: RefState, far: RefState, w: Wire, n: int, c: RefState)
    requires WireOk(near, far, w) && near.params.windowSize == far.params.windowSize
    requires c == CAcked(Heard(near), n) && WindowOk(c)
    requires c == near.(pending := near.pending - UpTo(near, n), lastHeard := c.lastHeard)
    requires forall k | k in UpTo(near, n) && k in near.pending :: k in Held(w.first, far)
    ensures WireOk(ToSend(c), far, Sent(w, Transmitted(Heard(near), ToSend(c))))
  {
    hide WireOk, WindowOk, UpTo, CAcked, ToSend, Held, Transmitted;
    RetiredKeepsWire(near, far, w, c, UpTo(near, n));
    SameTransmitted(Heard(near), c, ToSend(c));
  }

  lemma CAckedIsHeld(near: RefState, far: RefState, w: Wire, n: int)
    requires WireOk(near, far, w) && forall k | w.first <= k <= n :: k in w.acks
    ensures var c := CAcked(Heard(near), n);
            c == near.(pending := near.pending - UpTo(near, n), lastHeard := c.lastHeard) && WindowOk(c)
    ensures forall k | k in UpTo(near, n) && k in near.pending :: k in Held(w.first, far)
  {
    CAckedKeepsWindow(Heard(near), n);
    CAckedRetires(near, n);
    forall k | k in UpTo(near, n) && k in near.pending
      ensures k in Held(w.first, far)
    {
      assert k in Direction(near, far, w).pending;
    }
  }

  function UpTo(c: RefState, n: int): set<int> {
    set k | k in c.pending && k <= n
  }

  lemma CAckedRetires(c: RefState, n: int)
    ensures CAcked(Heard(c), n).pending == c.pending - UpTo(c, n)
  {
  }

  // ---------- Receiving ----------

  lemma {:induction false} DrainedKeepsSender(c: RefState)
    ensures SameSender(c, Drained(c)) && Drained(c).params == c.params
    decreases |c.early|
  {
    if c.expected in c.early {
      FewerEarly(c.early, c.expected);
      DrainedKeepsSender(TakeNext(c));
    }
  }

  lemma TakenIsHeld(c: RefState, first: int)
    requires first <= c.expected && c.expected in c.early
    ensures Held(first, TakeNext(c)) == Held(first, c) && c.expected in Held(first, c)
  {
  }

  lemma OneIsTaken(c: RefState, s: Stream, read: seq<Payload>)
    requires s.Inv() && Draining(c, s, read + c.readQueue) && c.expected in c.early
    ensures s.Deliver(1).Inv() && Draining(TakeNext(c), s.Deliver(1), read + TakeNext(c).readQueue)
  {
    hide Held;
    TakenIsHeld(c, s.first);
    s.DeliverKeepsInv(1);
    var d := TakeNext(c);
    assert read + d.readQueue == (read + c.readQueue) + [c.early[c.expected]];
  }

  // The drain loop hands over the whole contiguous run and nothing else.
  lemma {:induction false} RunIsDrained(c: RefState, s: Stream, read: seq<Payload>) returns (t: Stream)
    requires s.Inv() && Draining(c, s, read + c.readQueue)
    ensures t == s.(delivered := |read + Drained(c).readQueue|) && s.delivered <= t.delivered
    ensures t.Inv() && Receiver(Drained(c), t, read + Drained(c).readQueue)
    decreases |c.early|
  {
    if c.expected in c.early {
      FewerEarly(c.early, c.expected);
      OneIsTaken(c, s, read);
      t := RunIsDrained(TakeNext(c), s.Deliver(1), read);
    } else {
      t := s;
    }
  }

  /** A message of the peer is never too far ahead: it is always acknowledged, and then it is held. */
  lemma NeverTooFarAhead(near: RefState, far: RefState, w: Wire, m: Message)
    requires WireOk(near, far, w) && m in w.data
    ensures !TooFarAhead(far, m)
  {
  }

  lemma StoredIsHeld(c: RefState, s: Stream, m: Message, handedOver: seq<Payload>)
    requires s.Inv() && Receiver(c, s, handedOver) && m in s.data && c.expected <= m.seqNum
    ensures s.Receive(m.seqNum).Inv() && Draining(Stored(c, m), s.Receive(m.seqNum), handedOver)
  {
    assert s.Genuine(m);
    s.ReceiveKeepsInv(m);
  }

  lemma OldIsHeld(c: RefState, s: Stream, m: Message, handedOver: seq<Payload>)
    requires s.Inv() && Receiver(c, s, handedOver) && m in s.data && m.seqNum < c.expected
    ensures s.Receive(m.seqNum).Inv() && s.Receive(m.seqNum).held == s.held
  {
    assert s.Genuine(m);
    s.ReceiveKeepsInv(m);
  }

  lemma DataKeepsWire(near: RefState, far: RefState, w: Wire, m: Message)
    requires WireOk(near, far, w) && m in w.data
    ensures WireOk(near, OnData(Heard(far), m), w.(acks := w.acks + {m.seqNum}))
  {
    var c, s := Heard(far), Direction(near, far, w);
    NeverTooFarAhead(near, far, w, m);
    if m.seqNum < far.expected {
      OldDataKeepsWire(near, far, w, m);
    } else {
      NewDataKeepsWire(near, far, w, m);
    }
  }

  lemma OldDataKeepsWire(near: RefState, far: RefState, w: Wire, m: Message)
    requires WireOk(near, far, w) && m in w.data && m.seqNum < far.expected
    ensures WireOk(near, OnData(Heard(far), m), w.(acks := w.acks + {m.seqNum}))
  {
    var s, d, u := Direction(near, far, w), OnData(Heard(far), m), w.(acks := w.acks + {m.seqNum});
    OldIsHeld(far, s, m, HandedOver(far, w));
    assert Direction(near, d, u) == s.Receive(m.seqNum);
    SenderKept(near, s, s.Receive(m.seqNum));
    ReceiverKept(d, s, s.Receive(m.seqNum), HandedOver(far, w));
  }

  lemma SenderKept(c: RefState, s: Stream, t: Stream)
    requires Sender(c, s) && t.connId == s.connId && t.first == s.first && t.written == s.written
    requires t.waiting == s.waiting && t.pending == s.pending && s.data <= t.data
    ensures Sender(c, t)
  {
  }

  lemma NewDataKeepsWire(near: RefState, far: RefState, w: Wire, m: Message)
    requires WireOk(near, far, w) && m in w.data && far.expected <= m.seqNum && !TooFarAhead(far, m)
    ensures WireOk(near, OnData(Heard(far), m), w.(acks := w.acks + {m.seqNum}))
  {
    var s, c, u := Direction(near, far, w), Heard(far), w.(acks := w.acks + {m.seqNum});
    StoredIsHeld(c, s, m, HandedOver(far, w));
    var t := RunIsDrained(Stored(c, m), s.Receive(m.seqNum), w.read);
    DrainedKeepsSender(Stored(c, m));
    SenderKept(near, s, t);
    assert OnData(c, m) == Drained(Stored(c, m));
    assert t == Direction(near, OnData(c, m), u);
  }

  lemma ReadKeepsWire(near: RefState, far: RefState, w: Wire)
    requires WireOk(near, far, w) && far.readQueue != []
    ensures WireOk(near, far.(readQueue := far.readQueue[1..]), w.(read := w.read + [far.readQueue[0]]))
  {
    hide Stream.Inv, WindowOk, InWindow;
    var d, u := far.(readQueue := far.readQueue[1..]), w.(read := w.read + [far.readQueue[0]]);
    assert HandedOver(d, u) == HandedOver(far, w);
    assert Direction(near, d, u) == Direction(near, far, w);
  }

  // ---------- The epoch ----------

  // A retransmission is of something sent before.
  lemma NothingNewIsDue(near: RefState, far: RefState, w: Wire)
    requires WireOk(near, far, w)
    ensures Due(near) <= w.data
  {
  }

  lemma TickKeepsOut(x: Ends)
    requires WireOk(x.near, x.far, x.out)
    ensures WireOk(Ticks(x).near, Ticks(x).far, Ticks(x).out)
  {
    NothingNewIsDue(x.near, x.far, x.out);
    assert Ticks(x).out == x.out;
    WireOutKept(x.near, x.far, x.out, Ticks(x).near);
  }

  lemma TickKeepsBack(x: Ends)
    requires WireOk(x.far, x.near, x.back)
    ensures WireOk(Ticks(x).far, Ticks(x).near, Ticks(x).back)
  {
    hide WireOk, TickedTimers, Due;
    var d := OnTick(x.near);
    WireInKept(x.far, x.near, x.back, d);
    if Lost(x.near.(epoch := x.near.epoch + 1)) || x.near.heard {
      assert x.back.acks + {} == x.back.acks;
    } else {
      HeartbeatKeepsWire(x.far, d, x.back);
    }
  }

  lemma HeartbeatKeepsWire(near: RefState, far: RefState, w: Wire)
    requires WireOk(near, far, w)
    ensures WireOk(near, far, w.(acks := w.acks + {0}))
  {
    var s, u := Direction(near, far, w), w.(acks := w.acks + {0});
    s.ControlKeepsInv(0);
    assert Direction(near, far, u) == s.Control(0);
    SenderKept(near, s, s.Control(0));
    ReceiverKept(far, s, s.Control(0), HandedOver(far, w));
  }

  // ---------- Every event ----------

  lemma MovesKeepInv(x: Ends, a: Action)
    requires Inv(x) && May(x, a)
    ensures Inv(Moves(x, a))
  {
    hide WireOk, Accept, Tampered, CutToSize, Fits, Transmitted, ToSend, Drained;
    match a
    case Write(p) =>
      WriteKeepsWire(x.near, x.far, x.out, p);
      ToSendKeepsReceiver(Queued(x.near, p));
      WireInKept(x.far, x.near, x.back, OnWrite(x.near, p));
    case GetAck(n) =>
      AckKeepsWire(x.near, x.far, x.out, n);
      ToSendKeepsReceiver(Acked(Heard(x.near), n));
      WireInKept(x.far, x.near, x.back, OnAck(Heard(x.near), n));
    case GetCAck(n) =>
      CAckKeepsWire(x.near, x.far, x.out, n);
      ToSendKeepsReceiver(CAcked(Heard(x.near), n));
      WireInKept(x.far, x.near, x.back, OnCAck(Heard(x.near), n));
    case GetData(m, fault, isNumber) => DataKeepsInv(x, m, fault, isNumber);
    case Read =>
      ReadKeepsWire(x.far, x.near, x.back);
      WireOutKept(x.near, x.far, x.out, Reads(x).near);
    case Tick =>
      TickKeepsOut(x);
      TickKeepsBack(x);
  }

  // A frame whose checksum fits is the message as it was sent.
  lemma ArrivesAsSent(m: Message, fault: Fault, isNumber: bool)
    requires |m.payload| <= MAX_LENGTH
    ensures var f := CutToSize(Tampered(NewData(m), fault, isNumber));
            f.Some? && Fits(f.value) ==> Content(f.value) == m
  {
    hide Accept, Tampered, CutToSize, Fits;
    FiltersAgree(m, fault, isNumber);
    TamperingIsLoss(m, fault, isNumber);
  }

  lemma DataKeepsInv(x: Ends, m: Message, fault: Fault, isNumber: bool)
    requires Inv(x) && May(x, GetData(m, fault, isNumber))
    ensures Inv(Moves(x, GetData(m, fault, isNumber)))
  {
    hide WireOk, Accept, Tampered, CutToSize, Fits, Drained;
    ArrivesAsSent(m, fault, isNumber);
    match CutToSize(Tampered(NewData(m), fault, isNumber))
    case None =>
      CountersKeepInv(x, Heard(x.near));
    case Some(f) =>
      if Fits(f) {
        GetsFrameKeepsInv(x, f);
      } else {
        CountersKeepInv(x, Heard(x.near).(heard := true));
      }
  }

  lemma CountersKeepInv(x: Ends, c: RefState)
    requires Inv(x) && c == x.near.(heard := c.heard, lastHeard := c.lastHeard)
    ensures Inv(x.(near := c))
  {
    hide WireOk;
    WireOutKept(x.near, x.far, x.out, c);
    WireInKept(x.far, x.near, x.back, c);
  }

  lemma GetsFrameKeepsInv(x: Ends, f: Frame)
    requires Inv(x) && Fits(f) && Content(f) in x.back.data
    ensures Inv(GetsFrame(x, f))
  {
    hide WireOk, Fits, Drained;
    var m := Content(f);
    DataKeepsWire(x.far, x.near, x.back, m);
    NeverTooFarAhead(x.far, x.near, x.back, m);
    DrainedKeepsSender(Stored(Heard(x.near), m));
    WireOutKept(x.near, x.far, x.out, OnData(Heard(x.near), m));
  }

  lemma EventKeepsInv(x: Ends, e: Event)
    requires Inv(x) && Enabled(x, e)
    ensures Inv(After(x, e))
  {
    hide Inv, Moves, May;
    match e
    case AtNear(a) => MovesKeepInv(x, a);
    case AtFar(a) =>
      FlipKeepsInv(x);
      MovesKeepInv(Flip(x), a);
      FlipKeepsInv(Moves(Flip(x), a));
  }

  ghost predicate FromStart(states: seq<Ends>, events: seq<Event>) {
    IsRun(states, events) && IsStart(states[0])
  }

  lemma {:induction false} RunKeepsInv(states: seq<Ends>, events: seq<Event>, i: nat)
    requires FromStart(states, events) && i < |states|
    ensures Inv(states[i])
  {
    hide Inv, Enabled, After;
    if i == 0 {
      StartInv(states[0]);
    } else {
      RunKeepsInv(states, events, i - 1);
      EventKeepsInv(states[i - 1], events[i - 1]);
    }
  }

  lemma FlipKeepsInv(x: Ends)
    ensures Inv(Flip(x)) <==> Inv(x)
  {
  }

  // ---------- What every run guarantees ----------

  /** First in, first out, exactly once: what the far end has read is the beginning of what the near end wrote, and
      once nothing is unsent or pending, read and still to be read is everything written. The other direction is the
      same statement about the flipped ends. */
  lemma RunsAreFifo(states: seq<Ends>, events: seq<Event>, i: nat)
    requires FromStart(states, events) && i < |states|
    ensures forall x | x in {states[i], Flip(states[i])} ::
              && x.out.read <= x.out.wrote
              && (x.near.unsent == [] && x.near.pending == map[] ==> HandedOver(x.far, x.out) == x.out.wrote)
  {
    RunKeepsInv(states, events, i);
    forall x | x in {states[i], Flip(states[i])}
      ensures x.out.read <= x.out.wrote
      ensures x.near.unsent == [] && x.near.pending == map[] ==> HandedOver(x.far, x.out) == x.out.wrote
    {
      FlipKeepsInv(states[i]);
      assert WireOk(x.near, x.far, x.out);
      NextIsMissing(x.far, Direction(x.near, x.far, x.out), HandedOver(x.far, x.out));
      if x.near.unsent == [] && x.near.pending == map[] {
        Direction(x.near, x.far, x.out).AllDelivered();
      }
    }
  }

  // Neither the numbers pending nor the number expected ever fall back.
  ghost predicate Forward(c: RefState, d: RefState) {
    && Front(c) <= Front(d) && c.expected <= d.expected
    && forall n | n in d.pending :: n in c.pending || Front(c) <= n
  }

  lemma ToSendForward(c: RefState, d: RefState)
    requires WindowOk(d) && Front(c) <= Front(d) && d.pending.Keys <= c.pending.Keys && d.expected == c.expected
    ensures Forward(c, ToSend(d))
  {
    ToSendKeepsReceiver(d);
    NewFromFront(d, 0);
    forall n | n in ToSend(d).pending
      ensures n in c.pending || Front(c) <= n
    {
      NewFromFront(d, n);
    }
  }

  lemma {:induction false} DrainedForward(c: RefState)
    ensures c.expected <= Drained(c).expected
    decreases |c.early|
  {
    if c.expected in c.early {
      FewerEarly(c.early, c.expected);
      DrainedForward(TakeNext(c));
    }
  }

  lemma MovesForward(x: Ends, a: Action)
    requires WindowOk(x.near) && May(x, a)
    ensures Forward(x.near, Moves(x, a).near) && Moves(x, a).far == x.far
  {
    hide Accept, Tampered, CutToSize, Fits, Transmitted, ToSend, Drained, WindowOk, OnAck, OnCAck, OnFrame;
    match a
    case Write(p) =>
      QueuedKeepsWindow(x.near, p);
      ToSendForward(x.near, Queued(x.near, p));
    case GetAck(n) => AckForward(x.near, n);
    case GetCAck(n) => CAckForward(x.near, n);
    case GetData(m, fault, isNumber) => FrameForward(x, m, fault, isNumber);
    case _ =>
  }

  lemma AckForward(c: RefState, n: int)
    requires WindowOk(c)
    ensures Forward(c, OnAck(Heard(c), n))
  {
    hide ToSend, WindowOk;
    HeardKeepsWindow(c);
    AckedKeepsWindow(Heard(c), n);
    ToSendForward(c, Acked(Heard(c), n));
  }

  lemma CAckForward(c: RefState, n: int)
    requires WindowOk(c)
    ensures Forward(c, OnCAck(Heard(c), n))
  {
    hide ToSend, WindowOk;
    HeardKeepsWindow(c);
    CAckedKeepsWindow(Heard(c), n);
    ToSendForward(c, CAcked(Heard(c), n));
  }

  lemma HeardKeepsWindow(c: RefState)
    requires WindowOk(c)
    ensures WindowOk(Heard(c))
  {
  }

  lemma FrameForward(x: Ends, m: Message, fault: Fault, isNumber: bool)
    requires May(x, GetData(m, fault, isNumber))
    ensures Forward(x.near, Moves(x, GetData(m, fault, isNumber)).near)
  {
    hide Accept, Tampered, CutToSize, Fits, Drained;
    match CutToSize(Tampered(NewData(m), fault, isNumber))
    case None =>
    case Some(f) =>
      var c := Stored(Heard(x.near), Content(f));
      DrainedForward(c);
      DrainedKeepsSender(c);
  }

  lemma EventForward(x: Ends, e: Event)
    requires Inv(x) && Enabled(x, e)
    ensures Forward(x.near, After(x, e).near) && Forward(x.far, After(x, e).far)
  {
    hide Moves, May;
    match e
    case AtNear(a) => MovesForward(x, a);
    case AtFar(a) => MovesForward(Flip(x), a);
  }

  lemma {:induction false} RunForward(states: seq<Ends>, events: seq<Event>, i: nat, j: nat)
    requires FromStart(states, events) && i <= j < |states|
    ensures Forward(states[i].near, states[j].near) && Forward(states[i].far, states[j].far)
    decreases j
  {
    hide Inv, Enabled, After;
    if i < j {
      RunForward(states, events, i, j - 1);
      RunKeepsInv(states, events, j - 1);
      EventForward(states[j - 1], events[j - 1]);
    }
  }

  lemma OneWayAgrees(near: RefState, far: RefState, w: Wire, least: int)
    requires WireOk(near, far, w) && IsLeast(near.pending.Keys, Front(near), least)
    ensures forall m | m in w.data :: !TooFarAhead(far, m)
    ensures least <= far.expected
    ensures forall n, k | n in near.pending && k in near.pending :: n < k + near.params.windowSize
    ensures near.pending != map[] ==> |near.pending| <= near.params.maxUnackedMessages
  {
    forall m | m in w.data
      ensures !TooFarAhead(far, m)
    {
      NeverTooFarAhead(near, far, w, m);
    }
    NextIsMissing(far, Direction(near, far, w), HandedOver(far, w));
    Direction(near, far, w).LeastPendingBehind(least);
  }

  /** The two ends agree about the window: whatever message of its peer reaches an end, however late, lies inside its
      window, so it is acknowledged unless it is damaged; the least number pending at one end never exceeds the number
      the other expects; and the numbers pending fit into one window and the limit on unacknowledged messages. */
  lemma WindowsAgree(states: seq<Ends>, events: seq<Event>, i: nat, least: int)
    requires FromStart(states, events) && i < |states|
    requires IsLeast(states[i].near.pending.Keys, Front(states[i].near), least)
    ensures var x := states[i];
            && (forall m | m in x.out.data :: m.seqNum < x.far.expected + x.far.params.windowSize)
            && (forall m | m in x.back.data :: m.seqNum < x.near.expected + x.near.params.windowSize)
            && least <= x.far.expected
            && (forall n, k | n in x.near.pending && k in x.near.pending :: n < k + x.near.params.windowSize)
            && (x.near.pending != map[] ==> |x.near.pending| <= x.near.params.maxUnackedMessages)
  {
    hide FromStart, WireOk, IsLeast;
    RunKeepsInv(states, events, i);
    var x := states[i];
    OneWayAgrees(x.near, x.far, x.out, least);
    forall m | m in x.back.data
      ensures !TooFarAhead(x.near, m)
    {
      NeverTooFarAhead(x.far, x.near, x.back, m);
    }
  }

  ghost predicate LeastIs(c: RefState, least: int) {
    IsLeast(c.pending.Keys, Front(c), least)
  }

  // Both bounds of the window only ever move up, at either end.
  lemma WindowsMoveUp(states: seq<Ends>, events: seq<Event>, i: nat, j: nat)
    requires FromStart(states, events) && i <= j < |states|
    ensures var x, y := states[i], states[j];
            && (forall before, after | LeastIs(x.near, before) && LeastIs(y.near, after) :: before <= after)
            && (forall before, after | LeastIs(x.far, before) && LeastIs(y.far, after) :: before <= after)
            && x.near.expected <= y.near.expected && x.far.expected <= y.far.expected
  {
    RunForward(states, events, i, j);
  }
}
