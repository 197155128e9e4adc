/**
 What becomes of miners and clients over whole runs of the mining system: who is given work, in which order, and what
 a loss takes away.
 */
module MiningMiners {
  import opened Mining
  import opened MiningRuns
  import opened Scheduling

  /** The miners connected are those that are free and those that work; one whose loss was reported while it worked on a
      request that is gone is not connected and never becomes free. Only requests of lost clients are withdrawn. */
  ghost predicate MinersOk(w: System) {
    && (forall m | m in w.s.freeMiners :: m in w.connected)
    && (forall m | m in w.connected :: m in w.s.freeMiners || m in w.s.busyMiners)
    && (forall m | m in w.s.busyMiners && m !in w.connected :: w.s.busyMiners[m].requestId !in w.s.requestInfo)
    && (forall id | id in w.withdrawn :: id < |w.asked| && w.asked[id].clientId in w.lost)
  }

  lemma ListedIsLive(h: Hash, w: System, id: nat)
    requires RequestsOk(h, w)
    ensures id in w.s.requestInfo <==> Find(w.s.requestList, id) != -1
    ensures id in w.s.requestInfo ==> id < |w.asked| && w.s.requestInfo[id].clientId == w.asked[id].clientId
  {
    hide RequestOk;
    var i := Find(w.s.requestList, id);
    if i != -1 {
      assert w.s.requestList[i] in w.s.requestList;
      assert id in Ids(w.s.requestList);
    }
    if id in w.s.requestInfo {
      var q := LiveEntry(h, w, id);
      InfoOfEntry(h, w, q);
    }
  }

  lemma InfoOfEntry(h: Hash, w: System, q: ClientRequest)
    requires EntryOk(h, w, q)
    ensures w.s.requestInfo[q.requestId].clientId == w.asked[q.requestId].clientId
  {
    hide Conserved, ResultsOk, InFlight;
  }

  lemma LossKeepsMiners(h: Hash, w: System, connId: int, id: int)
    requires JobsOk(h, w) && MinersOk(w) && MayDrop(w.s, connId, id)
    ensures MinersOk(AfterLost(w, connId, id))
  {
    hide EntryOk, SortList, WithoutRequest, Ids;
    if connId in w.s.freeMiners {
      FreeWithout(w.s.freeMiners, connId);
    } else if connId in w.s.busyMiners {
      ListedIsLive(h, w, w.s.busyMiners[connId].requestId);
    } else if id != -1 {
      ListedIsLive(h, w, id);
    }
  }

  lemma FreeWithout(free: seq<int>, m: int)
    requires m in free && forall i, j | 0 <= i < j < |free| :: free[i] != free[j]
    ensures var i := IndexOfMiner(free, m); forall k :: k in free[..i] + free[i + 1..] <==> k in free && k != m
  {
    var i := IndexOfMiner(free, m);
    forall k
      ensures k in free[..i] + free[i + 1..] <==> k in free && k != m
    {
      if k in free && k != m {
        var j :| 0 <= j < |free| && free[j] == k;
        assert j < i ==> free[..i][j] == k;
        assert j > i ==> free[i + 1..][j - i - 1] == k;
      }
    }
  }

  lemma EventKeepsMiners(h: Hash, w: System, e: Event)
    requires JobsOk(h, w) && MinersOk(w) && Enabled(h, w, e)
    ensures MinersOk(After(h, w, e))
  {
    hide EntryOk, SortList, WithoutRequest, IsMinimum, Chunks, Answer, OnLost;
    match e
    case Lost(connId, id) => LossKeepsMiners(h, w, connId, id);
    case Dispatch =>
      assert w.s.freeMiners == [w.s.freeMiners[0]] + w.s.freeMiners[1..];
    case _ =>
  }

  lemma {:induction false} RunKeepsMiners(h: Hash, systems: seq<System>, events: seq<Event>, i: nat)
    requires IsRun(h, systems, events) && i < |systems|
    ensures Inv(h, systems[i]) && MinersOk(systems[i])
  {
    hide JobsOk, AnswersOk, MinersOk, Enabled, After;
    RunKeepsInv(h, systems, events, i);
    if i > 0 {
      RunKeepsMiners(h, systems, events, i - 1);
      EventKeepsMiners(h, systems[i - 1], events[i - 1]);
    } else {
      NoMiners();
    }
  }

  lemma NoMiners()
    ensures MinersOk(START)
  {
  }

  /** In every state of a run every connected miner is either free or at work, and every free miner is connected. Every
      job goes to a connected miner, which is then at work on what it was sent. */
  lemma MinersAreAccountedFor(h: Hash, systems: seq<System>, events: seq<Event>, i: nat)
    requires IsRun(h, systems, events) && i < |systems|
    ensures var w := systems[i];
            && (forall m | m in w.s.freeMiners :: m in w.connected && m !in w.s.busyMiners)
            && (forall m | m in w.connected :: m in w.s.freeMiners || m in w.s.busyMiners)
    ensures i < |events| && events[i].Dispatch? ==>
              var w, v := systems[i], systems[i + 1];
              && w.s.freeMiners != [] && w.s.requestList != [] && w.s.requestList[0].remainingJobs != []
              && var m, q := w.s.freeMiners[0], w.s.requestList[0];
              && m in w.connected && m !in v.s.freeMiners && m in v.s.busyMiners && m in v.orders
              && q.requestId < |w.asked| && v.s.busyMiners[m] == JobInfo(q.requestId, q.remainingJobs[0])
              && v.orders[m] == Order(w.asked[q.requestId].data, q.remainingJobs[0])
  {
    hide IsRun, EntryOk, SortList;
    RunKeepsMiners(h, systems, events, i);
    if i < |events| && events[i].Dispatch? {
      NextState(h, systems, events, i);
      var w := systems[i];
      assert w.s.requestList[0] in w.s.requestList;
      DispatchSends(h, w);
    }
  }

  lemma NextState(h: Hash, systems: seq<System>, events: seq<Event>, i: nat)
    requires IsRun(h, systems, events) && i < |events|
    ensures |systems| == |events| + 1 && Enabled(h, systems[i], events[i])
    ensures systems[i + 1] == After(h, systems[i], events[i])
  {
  }

  lemma DispatchSends(h: Hash, w: System)
    requires CanDispatch(w.s) && EntryOk(h, w, w.s.requestList[0])
    ensures w.s.requestList[0].requestId < |w.asked|
    ensures MessageOf(w.s, w.s.requestList[0].requestId) == w.asked[w.s.requestList[0].requestId].data
  {
    hide Conserved, ResultsOk, InFlight;
  }

  /** The loss of a connection leaves no free miner of that id, and no busy one unless its request is gone; and if it
      was the connection of a client with a live request, one such request is withdrawn, and nothing else is. */
  lemma LossTakesAway(h: Hash, systems: seq<System>, events: seq<Event>, i: nat)
    requires IsRun(h, systems, events) && i < |events| && events[i].Lost?
    ensures var w, v, c := systems[i], systems[i + 1], events[i].connId;
            && c !in v.s.freeMiners
            && (c in v.s.busyMiners ==> v.s.busyMiners[c].requestId !in v.s.requestInfo)
            && (forall m | m in w.s.freeMiners && m != c :: m in v.s.freeMiners)
            && (forall id | id in v.withdrawn && id !in w.withdrawn ::
                  id < |w.asked| && w.asked[id].clientId == c && id in w.s.requestInfo && id !in v.s.requestInfo)
            && (c !in w.s.freeMiners && c !in w.s.busyMiners
                && (exists id | id in w.s.requestInfo :: w.s.requestInfo[id].clientId == c) ==>
                  exists id | id in v.withdrawn :: id !in w.withdrawn)
  {
    hide IsRun, EntryOk, SortList, WithoutRequest, Ids;
    NextState(h, systems, events, i);
    RunKeepsMiners(h, systems, events, i);
    RunKeepsMiners(h, systems, events, i + 1);
    var w, c, id := systems[i], events[i].connId, events[i].requestId;
    if c in w.s.freeMiners {
      FreeWithout(w.s.freeMiners, c);
    } else if c !in w.s.busyMiners && id != -1 {
      ListedIsLive(h, w, id);
      assert id !in w.withdrawn;
      assert id in systems[i + 1].withdrawn;
    }
  }

  // ---------- First in, first out ----------

  // One miner waits ahead of another, or the other does not wait at all.
  ghost predicate Ahead(free: seq<int>, a: int, b: int) {
    forall j | 0 <= j < |free| && free[j] == b :: a in free[..j]
  }

  // What each event does to the list of free miners
  lemma FreeAfterResult(s: SchedulerState, m: int, r: Best)
    ensures OnResult(s, m, r).freeMiners == if Ignored(s, m) then s.freeMiners else s.freeMiners + [m]
  {
    hide WithoutRequest;
  }

  lemma FreeAfterLoss(s: SchedulerState, connId: int, id: int)
    requires MayDrop(s, connId, id)
    ensures OnLost(s, connId, id).freeMiners
         == if connId in s.freeMiners then
              var i := IndexOfMiner(s.freeMiners, connId);
              s.freeMiners[..i] + s.freeMiners[i + 1..]
            else s.freeMiners
  {
    hide WithoutRequest, SortList;
  }

  lemma FreeAfterDispatch(s: SchedulerState)
    requires CanDispatch(s)
    ensures OnDispatch(s).freeMiners == s.freeMiners[..0] + s.freeMiners[0 + 1..]
  {
    hide SortList;
  }

  lemma EventKeepsAhead(h: Hash, w: System, e: Event, a: int, b: int)
    requires Enabled(h, w, e) && a in w.s.freeMiners && a != b && Ahead(w.s.freeMiners, a, b)
    requires forall i, j | 0 <= i < j < |w.s.freeMiners| :: w.s.freeMiners[i] != w.s.freeMiners[j]
    requires a in After(h, w, e).s.freeMiners
    ensures Ahead(After(h, w, e).s.freeMiners, a, b)
  {
    hide IsMinimum, Chunks, Answer, Ahead, OnResult, OnLost, OnDispatch, Completes, Ignored;
    var free := w.s.freeMiners;
    match e
    case Join(m) => AheadWithMore(free, m, a, b);
    case Result(m, r) =>
      FreeAfterResult(w.s, m, r);
      AheadWithMore(free, m, a, b);
    case Lost(connId, id) =>
      FreeAfterLoss(w.s, connId, id);
      if connId in free {
        FreeWithout(free, connId);
        AheadWithLess(free, IndexOfMiner(free, connId), a, b);
      }
    case Dispatch =>
      FreeAfterDispatch(w.s);
      FirstLeaves(free, a);
      AheadWithLess(free, 0, a, b);
    case _ =>
  }

  lemma FirstLeaves(free: seq<int>, a: int)
    requires free != [] && forall i, j | 0 <= i < j < |free| :: free[i] != free[j]
    ensures a in free[..0] + free[0 + 1..] ==> free[0] != a
  {
  }

  lemma AheadWithMore(free: seq<int>, m: int, a: int, b: int)
    requires a in free && Ahead(free, a, b)
    ensures Ahead(free + [m], a, b)
  {
    var after := free + [m];
    forall j | 0 <= j < |after| && after[j] == b
      ensures a in after[..j]
    {
      if j < |free| {
        assert after[..j] == free[..j];
      } else {
        assert after[..j] == free;
      }
    }
  }

  lemma AheadWithLess(free: seq<int>, i: nat, a: int, b: int)
    requires i < |free| && Ahead(free, a, b) && free[i] != a
    ensures Ahead(free[..i] + free[i + 1..], a, b)
  {
    var after := free[..i] + free[i + 1..];
    forall j | 0 <= j < |after| && after[j] == b
      ensures a in after[..j]
    {
      var k := if j < i then j else j + 1;
      assert free[k] == b;
      var x :| 0 <= x < k && free[..k][x] == a;
      assert after[..j][if x < i then x else x - 1] == a;
    }
  }

  lemma {:induction false} StaysAhead(h: Hash, systems: seq<System>, events: seq<Event>, i: nat, j: nat, a: int, b: int)
    requires IsRun(h, systems, events) && i <= j < |systems| && a != b && Ahead(systems[i].s.freeMiners, a, b)
    requires forall k | i <= k <= j :: a in systems[k].s.freeMiners
    ensures Ahead(systems[j].s.freeMiners, a, b)
    decreases j
  {
    hide Enabled, After, JobsOk, AnswersOk, Ahead;
    if i < j {
      StaysAhead(h, systems, events, i, j - 1, a, b);
      RunKeepsInv(h, systems, events, j - 1);
      assert a in systems[j - 1].s.freeMiners && a in systems[j].s.freeMiners;
      FreeAreDistinct(h, systems[j - 1]);
      EventKeepsAhead(h, systems[j - 1], events[j - 1], a, b);
    }
  }

  lemma FreeAreDistinct(h: Hash, w: System)
    requires JobsOk(h, w)
    ensures forall i, j | 0 <= i < j < |w.s.freeMiners| :: w.s.freeMiners[i] != w.s.freeMiners[j]
  {
    hide RequestsOk, BusyOk;
  }

  lemma NeverFirst(free: seq<int>, a: int, b: int)
    requires free != [] && Ahead(free, a, b)
    ensures free[0] != b
  {
  }

  /** The miner that waited longest is next: while miner a has been free since before miner b, b is given no job. */
  lemma NoMinerOvertakes(h: Hash, systems: seq<System>, events: seq<Event>, i: nat, j: nat, a: int, b: int)
    requires IsRun(h, systems, events) && i <= j < |events| && events[j].Dispatch? && a != b
    requires forall k | i <= k <= j :: a in systems[k].s.freeMiners
    requires b in systems[i].s.freeMiners ==>
               exists x, y :: 0 <= x < y < |systems[i].s.freeMiners|
                              && systems[i].s.freeMiners[x] == a && systems[i].s.freeMiners[y] == b
    ensures b !in systems[j + 1].s.busyMiners || b in systems[j].s.busyMiners
  {
    hide IsRun, JobsOk, AnswersOk, SortList;
    NextState(h, systems, events, j);
    RunKeepsInv(h, systems, events, i);
    EarlierIsAhead(h, systems[i], a, b);
    StaysAhead(h, systems, events, i, j, a, b);
    NeverFirst(systems[j].s.freeMiners, a, b);
  }

  lemma EarlierIsAhead(h: Hash, w: System, a: int, b: int)
    requires JobsOk(h, w)
    requires b in w.s.freeMiners ==>
               exists x, y :: 0 <= x < y < |w.s.freeMiners| && w.s.freeMiners[x] == a && w.s.freeMiners[y] == b
    ensures Ahead(w.s.freeMiners, a, b)
  {
    hide RequestsOk, BusyOk;
    var free := w.s.freeMiners;
    forall j | 0 <= j < |free| && free[j] == b
      ensures a in free[..j]
    {
      var x, y :| 0 <= x < y < |free| && free[x] == a && free[y] == b;
      assert y == j;
      assert free[..j][x] == a;
    }
  }
}
