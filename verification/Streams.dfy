/**
 One direction of a connection, reduced to what its correctness depends on. The client, the server and the
 reference link each act on a stream only through the steps below, and every step keeps `Inv`.

 The network is the set of all packets ever sent: any of them may arrive, never, once or often, in any order.
 */
module Streams {
  import opened Messages

  datatype Stream = Stream(
    connId: int,
    first: int,              // number of the first data message
    written: seq<Payload>,   // everything given to Write so far
    waiting: set<int>,       // numbers in the sender's queue
    pending: set<int>,       // numbers in the sender's window
    data: set<Message>,      // data messages ever sent
    acks: set<int>,          // acknowledgements ever sent
    held: set<int>,          // numbers the receiver has accepted
    delivered: nat)          // how many payloads the receiver has handed over in order
  {
    // One past the last number written.
    function End(): int {
      first + |written|
    }

    function At(n: int): Message
      requires first <= n < End()
    {
      Message(connId, n, written[n - first])
    }

    ghost predicate Genuine(m: Message) {
      first <= m.seqNum < End() && m == At(m.seqNum)
    }

    // Nothing written is forgotten: a number waits, is in the window, or has been accepted.
    ghost predicate Inv() {
      && (forall n | n in waiting || n in pending || n in held :: first <= n < End())
      && (forall m | m in data :: Genuine(m))
      && (forall n | n in acks && first <= n :: n in held)
      && (forall n | first <= n < End() :: n in waiting || n in pending || n in held)
      && delivered <= |written|
      && (forall n | first <= n < first + delivered :: n in held)
    }

    // ---------- Steps ----------

    function Write(p: Payload): Stream {
      this.(written := written + [p], waiting := waiting + {End()})
    }

    // Queue and window change, and some messages are transmitted.
    function Send(waiting: set<int>, pending: set<int>, ms: seq<Message>): Stream {
      this.(waiting := waiting, pending := pending, data := data + Elements(ms))
    }

    function Receive(n: int): Stream {
      this.(held := held + {n}, acks := acks + {n})
    }

    // An acknowledgement below the data numbers: of the connection request, or a heartbeat.
    function Control(n: int): Stream {
      this.(acks := acks + {n})
    }

    function Deliver(k: nat): Stream {
      this.(delivered := delivered + k)
    }

    // ---------- Every step keeps the invariant ----------

    lemma WriteKeepsInv(p: Payload)
      requires Inv()
      ensures Write(p).Inv()
    {
    }

    // The sender may forget a number only when the receiver has accepted it.
    lemma SendKeepsInv(waiting: set<int>, pending: set<int>, ms: seq<Message>)
      requires Inv() && forall m | m in ms :: Genuine(m)
      requires waiting + pending <= this.waiting + this.pending <= waiting + pending + held
      ensures Send(waiting, pending, ms).Inv()
    {
      var s := Send(waiting, pending, ms);
      forall n | n in s.waiting || n in s.pending
        ensures first <= n < End()
      {
        assert n in this.waiting + this.pending;
      }
      forall n | first <= n < End()
        ensures n in s.waiting || n in s.pending || n in s.held
      {
        if n !in held {
          assert n in this.waiting + this.pending;
        }
      }
    }

    lemma ReceiveKeepsInv(m: Message)
      requires Inv() && m in data
      ensures Receive(m.seqNum).Inv()
    {
    }

    lemma ControlKeepsInv(n: int)
      requires Inv() && n < first
      ensures Control(n).Inv()
    {
    }

    lemma DeliverKeepsInv(k: nat)
      requires Inv()
      requires forall n | first + delivered <= n < first + delivered + k :: n in held
      ensures Deliver(k).Inv()
    {
      var s := Deliver(k);
      forall m | m in data
        ensures s.Genuine(m)
      {
        assert Genuine(m);
      }
      if k > 0 {
        assert first + delivered + k - 1 in held;
      }
    }

    // ---------- What the invariant is worth ----------

    // Once nothing waits or is in the window, the receiver has accepted every message.
    lemma NothingLost()
      requires Inv() && waiting == {} && pending == {}
      ensures forall n | first <= n < End() :: n in held
    {
    }

    // A receiver that hands over the whole contiguous run has then handed over everything.
    lemma AllDelivered()
      requires Inv() && waiting == {} && pending == {}
      requires first + delivered !in held
      ensures delivered == |written|
    {
    }

    // The oldest number not acknowledged never runs ahead of what such a receiver waits for.
    lemma LeastPendingBehind(n: int)
      requires Inv() && first + delivered !in held
      requires n <= End() && forall k | k in pending || k in waiting :: n <= k
      ensures n <= first + delivered
    {
    }
  }

  // ---------- Receivers compared ----------

  // A receiver that hands over the whole contiguous run is never behind one that has accepted no more.
  lemma MaximalRun(s: Stream, t: Stream)
    requires s.Inv() && t.Inv() && s.first == t.first && t.held <= s.held
    requires s.first + s.delivered !in s.held
    ensures t.delivered <= s.delivered
    ensures s.held == t.held && t.first + t.delivered !in t.held ==> t.delivered == s.delivered
  {
  }

  // ---------- A sender that keeps a window and a queue of messages ----------

  ghost predicate Sends(window: seq<Message>, queue: seq<Message>, s: Stream) {
    && SeqNums(window) == s.pending && SeqNums(queue) == s.waiting
    && (forall m | m in window :: m in s.data)
    && (forall m | m in queue :: s.Genuine(m))
  }

  // The stream after window and queue have become these and ms has been transmitted
  function Moved(s: Stream, window: seq<Message>, queue: seq<Message>, ms: seq<Message>): Stream {
    s.Send(SeqNums(queue), SeqNums(window), ms)
  }

  /** Whatever an acknowledgement, a cumulative one or a promotion does to window and queue: as long as it transmits
      from the queue, lets nothing else into the window, and loses only numbers that the receiver has accepted. */
  lemma MovedSends(window: seq<Message>, queue: seq<Message>, s: Stream, w: seq<Message>, q: seq<Message>,
                   ms: seq<Message>)
    requires s.Inv() && Sends(window, queue, s)
    requires forall m | m in ms || m in q :: m in queue
    requires forall m | m in w :: m in window || m in ms
    requires forall m | m in window || m in queue :: m in w || m in q || m.seqNum in s.held
    ensures Moved(s, w, q, ms).Inv() && Sends(w, q, Moved(s, w, q, ms))
  {
    forall n | n in SeqNums(q) + SeqNums(w)
      ensures n in s.waiting + s.pending
    {
      var m :| m in q + w && m.seqNum == n;
      assert m in queue || m in window;
    }
    forall n | n in s.waiting + s.pending
      ensures n in SeqNums(q) + SeqNums(w) + s.held
    {
      var m :| m in queue + window && m.seqNum == n;
      assert m in window || m in queue;
    }
    s.SendKeepsInv(SeqNums(q), SeqNums(w), ms);
  }

  lemma WriteSends(window: seq<Message>, queue: seq<Message>, s: Stream, p: Payload)
    requires s.Inv() && Sends(window, queue, s)
    ensures s.Write(p).Inv()
    ensures Sends(window, queue + [Message(s.connId, s.End(), p)], s.Write(p))
  {
    var m := Message(s.connId, s.End(), p);
    SeqNumsConcat(queue, [m]);
    assert SeqNums([m]) == {m.seqNum};
  }
}
