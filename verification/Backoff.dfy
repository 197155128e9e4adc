/**
 The three retransmission timers: the client counts elapsed epochs up, the server counts running epochs up,
 the reference counts down. Each is created when its message is first transmitted and ticked once an epoch.
 */
module Backoff {

  // Client: backOffMap entries
  datatype BackOff = BackOff(currentBackoff: int, epochElapsed: int)

  // Server: messageBackoff entries, without the message
  datatype ServerTimer = ServerTimer(running: int, current: int, total: int)

  // Reference: the entries of the two timer maps
  datatype CountDown = CountDown(remaining: int, interval: int)

  function Cap(x: int, max: int): int {
    if x > max then max else x
  }

  // The next interval: 0, 1, 2, 4, ... never above the maximum.
  function Grown(current: int, max: int): int {
    Cap(if current == 0 then 1 else current * 2, max)
  }

  predicate ClientDue(b: BackOff) {
    b.epochElapsed >= b.currentBackoff
  }

  function ClientTick(b: BackOff, max: int): BackOff {
    if ClientDue(b) then BackOff(Grown(b.currentBackoff, max), 1) else b.(epochElapsed := b.epochElapsed + 1)
  }

  predicate ServerDue(t: ServerTimer) {
    t.running >= t.current
  }

  function ServerTick(t: ServerTimer, max: int): ServerTimer {
    if ServerDue(t) then ServerTimer(0, Grown(t.current, max), t.total + 1)
    else t.(running := t.running + 1, total := t.total + 1)
  }

  predicate CountDownDue(t: CountDown) {
    t.remaining == 0
  }

  function CountDownTick(t: CountDown, max: int): CountDown {
    if CountDownDue(t) then CountDown(t.interval, Cap(t.interval + t.interval, max))
    else t.(remaining := t.remaining - 1)
  }

  function NewCountDown(max: int): CountDown {
    CountDown(0, Cap(1, max))
  }

  // ---------- Histories: the timer after n ticks, if its message stays unacknowledged ----------

  function ClientAfter(n: nat, max: int): BackOff {
    if n == 0 then BackOff(0, 0) else ClientTick(ClientAfter(n - 1, max), max)
  }

  function ServerAfter(n: nat, max: int): ServerTimer {
    if n == 0 then ServerTimer(0, 0, 0) else ServerTick(ServerAfter(n - 1, max), max)
  }

  function CountDownAfter(n: nat, max: int): CountDown {
    if n == 0 then NewCountDown(max) else CountDownTick(CountDownAfter(n - 1, max), max)
  }

  // Whether tick n (counted from 1) retransmits.
  predicate ClientFires(n: nat, max: int)
    requires n > 0
  {
    ClientDue(ClientAfter(n - 1, max))
  }

  predicate ServerFires(n: nat, max: int)
    requires n > 0
  {
    ServerDue(ServerAfter(n - 1, max))
  }

  predicate CountDownFires(n: nat, max: int)
    requires n > 0
  {
    CountDownDue(CountDownAfter(n - 1, max))
  }

  // ---------- Closed forms ----------

  function Pow2(n: nat): nat {
    if n == 0 then 1 else 2 * Pow2(n - 1)
  }

  // The interval in force after the k-th retransmission; 0 before the first.
  function Interval(k: nat, max: nat): nat {
    if k == 0 then 0 else Cap(Pow2(k - 1), max)
  }

  // The tick of the k-th retransmission: on the server the next one comes Interval + 1 ticks later, on the
  // client Interval ticks later but never less than one.
  function ServerFireTick(k: nat, max: nat): nat {
    if k <= 1 then k else ServerFireTick(k - 1, max) + Interval(k - 1, max) + 1
  }

  function ClientFireTick(k: nat, max: nat): nat {
    if k <= 1 then k
    else ClientFireTick(k - 1, max) + if Interval(k - 1, max) > 1 then Interval(k - 1, max) else 1
  }

  ghost predicate IsServerFireTick(n: nat, max: nat) {
    exists k: nat | k > 0 :: n == ServerFireTick(k, max)
  }

  ghost predicate IsClientFireTick(n: nat, max: nat) {
    exists k: nat | k > 0 :: n == ClientFireTick(k, max)
  }

  lemma {:induction false} Pow2Positive(n: nat)
    ensures Pow2(n) > 0
  {
    if n > 0 {
      Pow2Positive(n - 1);
    }
  }

  lemma GrownIsNextInterval(k: nat, max: nat)
    ensures Grown(Interval(k, max), max) == Interval(k + 1, max)
  {
    if k > 0 {
      Pow2Positive(k - 1);
    }
  }

  // After n ticks with k retransmissions behind it, the server's timer has run n - (tick of the k-th) epochs.
  lemma {:induction false} ServerTimeline(n: nat, max: nat) returns (k: nat)
    ensures ServerFireTick(k, max) <= n < ServerFireTick(k + 1, max)
    ensures ServerAfter(n, max) == ServerTimer(n - ServerFireTick(k, max), Interval(k, max), n)
    ensures ServerFires(n + 1, max) <==> n + 1 == ServerFireTick(k + 1, max)
  {
    if n == 0 {
      k := 0;
    } else {
      var j := ServerTimeline(n - 1, max);
      GrownIsNextInterval(j, max);
      k := if ServerFires(n, max) then j + 1 else j;
    }
  }

  lemma {:induction false} ClientTimeline(n: nat, max: nat) returns (k: nat)
    ensures ClientFireTick(k, max) <= n < ClientFireTick(k + 1, max)
    ensures n > 0 ==> k > 0
    ensures ClientAfter(n, max) == BackOff(Interval(k, max), if n == 0 then 0 else n - ClientFireTick(k, max) + 1)
    ensures ClientFires(n + 1, max) <==> n + 1 == ClientFireTick(k + 1, max)
  {
    if n == 0 {
      k := 0;
    } else {
      var j := ClientTimeline(n - 1, max);
      GrownIsNextInterval(j, max);
      k := if ClientFires(n, max) then j + 1 else j;
    }
  }

  lemma {:induction false} ServerTicksIncrease(j: nat, k: nat, max: nat)
    requires j < k
    ensures ServerFireTick(j, max) < ServerFireTick(k, max)
  {
    if j + 1 < k {
      ServerTicksIncrease(j, k - 1, max);
    }
  }

  lemma {:induction false} ClientTicksIncrease(j: nat, k: nat, max: nat)
    requires j < k
    ensures ClientFireTick(j, max) < ClientFireTick(k, max)
  {
    if j + 1 < k {
      ClientTicksIncrease(j, k - 1, max);
    }
  }

  // The retransmissions happen at the ticks of the closed form and at no others.
  lemma ServerClosedForm(n: nat, max: nat)
    requires n > 0
    ensures ServerFires(n, max) <==> IsServerFireTick(n, max)
  {
    var k := ServerTimeline(n - 1, max);
    forall j: nat | j > 0 && n == ServerFireTick(j, max)
      ensures j == k + 1
    {
      if j < k {
        ServerTicksIncrease(j, k, max);
      } else if j > k + 1 {
        ServerTicksIncrease(k + 1, j, max);
      }
    }
    if ServerFires(n, max) {
      assert n == ServerFireTick(k + 1, max);
    }
  }

  lemma ClientClosedForm(n: nat, max: nat)
    requires n > 0
    ensures ClientFires(n, max) <==> IsClientFireTick(n, max)
  {
    var k := ClientTimeline(n - 1, max);
    forall j: nat | j > 0 && n == ClientFireTick(j, max)
      ensures j == k + 1
    {
      if j < k {
        ClientTicksIncrease(j, k, max);
      } else if j > k + 1 {
        ClientTicksIncrease(k + 1, j, max);
      }
    }
    if ClientFires(n, max) {
      assert n == ClientFireTick(k + 1, max);
    }
  }

  // The reference's countdown and the server's count-up are the same timer.
  lemma {:induction false} CountDownMirrorsCountUp(n: nat, max: nat)
    ensures var s, c := ServerAfter(n, max), CountDownAfter(n, max);
            && c == CountDown(s.current - s.running, Grown(s.current, max))
            && 0 <= s.running <= s.current <= max
  {
    if n > 0 {
      CountDownMirrorsCountUp(n - 1, max);
    }
  }

  lemma SameFireTicks(n: nat, max: nat)
    requires n > 0
    ensures CountDownFires(n, max) <==> ServerFires(n, max)
  {
    CountDownMirrorsCountUp(n - 1, max);
  }

  // No timer stays silent for more than the maximum interval: among any maximum + 1 consecutive ticks one fires.
  lemma SilenceIsBounded(n: nat, max: nat)
    requires n > 0
    ensures exists i: nat | n <= i <= n + max :: ServerFires(i, max) && CountDownFires(i, max)
    ensures exists i: nat | n <= i <= n + max :: ClientFires(i, max)
  {
    var k := ServerTimeline(n - 1, max);
    var i := ServerFireTick(k + 1, max);
    assert n <= i <= n + max;
    ServerClosedForm(i, max);
    SameFireTicks(i, max);
    var j := ClientTimeline(n - 1, max);
    var c := ClientFireTick(j + 1, max);
    assert n <= c <= n + max;
    ClientClosedForm(c, max);
  }
}
