/**
 The order in which the scheduler serves requests. The list is sorted only when a job is dispatched or comes back,
 and arrivals are appended unsorted, so what the order is worth shows only over whole runs.
 */
module MiningOrder {
  import opened Mining
  import opened Scheduling
  import opened MiningRuns
  import opened Sorting

  function Total(w: System, id: nat): nat
    requires id < |w.asked|
  {
    |JobsOf(w.asked[id])|
  }

  ghost predicate Live(w: System, id: nat) {
    id < |w.asked| && id in Ids(w.s.requestList)
  }

  ghost predicate Untouched(list: seq<ClientRequest>, id: nat, total: nat) {
    forall q | q in list && q.requestId == id :: |q.remainingJobs| == total
  }

  ghost predicate AtMost(list: seq<ClientRequest>, id: nat, n: nat) {
    forall q | q in list && q.requestId == id :: |q.remainingJobs| <= n
  }

  ghost predicate MoreThan(list: seq<ClientRequest>, id: nat, n: nat) {
    forall q | q in list && q.requestId == id :: |q.remainingJobs| > n
  }

  // ---------- What sorting does to two requests ----------

  // After sorting, a request with fewer jobs, or as many but an earlier number, comes first.
  lemma SortedPrecedes(list: seq<ClientRequest>, a: nat, b: nat, n: nat)
    requires SortedBy(ByRemainingJobs, list) && a != b
    requires AtMost(list, a, n)
    requires MoreThan(list, b, n) || (a < b && Untouched(list, b, n))
    ensures Precedes(list, a, b)
  {
  }

  // A live request never has more jobs left than it came with, and fewer once one of them is out.
  lemma NeverMoreThanTotal(h: Hash, w: System, id: nat)
    requires JobsOk(h, w) && Live(w, id)
    ensures AtMost(w.s.requestList, id, Total(w, id))
    ensures InFlight(w.s.busyMiners, id) != {} ==> !Untouched(w.s.requestList, id, Total(w, id))
    ensures InFlight(w.s.busyMiners, id) != {} ==> forall q | q in w.s.requestList && q.requestId == id ::
                                                     |q.remainingJobs| < Total(w, id)
  {
    forall q | q in w.s.requestList && q.requestId == id
      ensures |q.remainingJobs| + |InFlight(w.s.busyMiners, id)| <= Total(w, id)
    {
      assert EntryOk(h, w, q);
      CountConserved(q.remainingJobs, InFlight(w.s.busyMiners, id), Done(w, id), JobsOf(w.asked[id]));
    }
    var q :| q in w.s.requestList && q.requestId == id;
  }

  // ---------- At most the head is exhausted ----------

  lemma SortedHeadOnly(list: seq<ClientRequest>)
    requires SortedBy(ByRemainingJobs, list) && DistinctIds(list)
    requires forall p, q | p in list && q in list && p.remainingJobs == [] && q.remainingJobs == [] :: p == q
    ensures HeadOnly(list)
  {
    forall i | 0 < i < |list|
      ensures list[i].remainingJobs != []
    {
      assert ByRemainingJobs(list[0], list[i]);
      assert list[0] in list && list[i] in list;
    }
  }

  // One entry is replaced: at most one of the list had no jobs left, and at most one has none afterwards.
  lemma ResortedHeadOnly(list: seq<ClientRequest>, i: nat, q: ClientRequest)
    requires i < |list| && DistinctIds(list) && HeadOnly(list) && q.requestId == list[i].requestId
    requires q.remainingJobs == [] ==> i == 0
    ensures HeadOnly(Resorted(list, i, q))
  {
    ResortedKeeps(list, i, q);
    var r := Resorted(list, i, q);
    forall p, k | p in r && k in r && p.remainingJobs == [] && k.remainingJobs == []
      ensures p == k
    {
      assert p != q ==> p == list[0];
      assert k != q ==> k == list[0];
    }
    SortedHeadOnly(r);
  }

  /** At every moment at most one live request has no jobs left to dispatch, and it heads the list. */
  lemma EventKeepsHeadOnly(h: Hash, w: System, e: Event)
    requires JobsOk(h, w) && HeadOnly(w.s.requestList) && Enabled(h, w, e)
    ensures HeadOnly(After(h, w, e).s.requestList)
  {
    hide EntryOk, Sort, Chunks, ByRemainingJobs;
    var list := w.s.requestList;
    match e
    case Join(m) =>
    case Dispatch =>
      ResortedHeadOnly(list, 0, list[0].(remainingJobs := list[0].remainingJobs[1..]));
    case Request(clientId, data, lower, upper) =>
      ChunksCount(lower, upper);
    case Lost(connId, id) =>
      if connId !in w.s.freeMiners && connId in w.s.busyMiners {
        var i := Find(list, w.s.busyMiners[connId].requestId);
        if i != -1 {
          ResortedHeadOnly(list, i, list[i].(remainingJobs := list[i].remainingJobs + [w.s.busyMiners[connId].job]));
        }
      } else if connId !in w.s.freeMiners && id != -1 {
        RemovedHeadOnly(list, id);
      }
    case Result(m, r) =>
      if Completes(w.s, m) {
        RemovedHeadOnly(list, w.s.busyMiners[m].requestId);
      }
  }

  lemma RemovedHeadOnly(list: seq<ClientRequest>, id: nat)
    requires HeadOnly(list)
    ensures HeadOnly(WithoutRequest(list, id))
  {
  }

  // ---------- Two requests in turn ----------

  /** The second of two requests waits for the first: it is behind it and has either more than n jobs left, or all of
      its n jobs and a later number, while the first came with at most n. */
  ghost predicate Waits(list: seq<ClientRequest>, a: nat, b: nat, n: nat) {
    MoreThan(list, b, n) || (a < b && Untouched(list, b, n))
  }

  lemma DispatchedPair(h: Hash, w: System, a: nat, b: nat, n: nat)
    requires JobsOk(h, w) && CanDispatch(w.s) && Live(w, a) && Live(w, b) && a != b && Total(w, a) <= n
    requires Dispatched(w.s).requestId != b && Waits(w.s.requestList, a, b, n)
    ensures var r := OnDispatch(w.s).requestList;
            && Precedes(r, a, b)
            && (MoreThan(w.s.requestList, b, n) ==> MoreThan(r, b, n))
            && (Untouched(w.s.requestList, b, n) ==> Untouched(r, b, n))
  {
    hide Sort, Chunks, InFlight;
    var q := w.s.requestList[0];
    var q1 := q.(remainingJobs := q.remainingJobs[1..]);
    ResortedKeeps(w.s.requestList, 0, q1);
    NeverMoreThanTotal(h, w, a);
    assert OnDispatch(w.s).requestList == Resorted(w.s.requestList, 0, q1);
    SortedPrecedes(Resorted(w.s.requestList, 0, q1), a, b, n);
  }

  lemma JobIsOut(h: Hash, w: System, m: int)
    requires JobsOk(h, w) && m in w.s.busyMiners
    ensures w.s.busyMiners[m].job in InFlight(w.s.busyMiners, w.s.busyMiners[m].requestId)
  {
    hide InFlight, RequestsOk, FreeOk;
    InFlightAfterReturn(w.s.busyMiners, m, w.s.busyMiners[m].requestId);
  }

  lemma ReturnedPair(h: Hash, w: System, m: int, a: nat, b: nat, n: nat)
    requires JobsOk(h, w) && m in w.s.busyMiners && Live(w, a) && Live(w, b) && a != b && Total(w, a) <= n
    requires Waits(w.s.requestList, a, b, n)
    requires MoreThan(w.s.requestList, b, n) || n == Total(w, b)
    ensures var r := OnReassign(w.s, m).requestList;
            && (Precedes(w.s.requestList, a, b) ==> Precedes(r, a, b))
            && (MoreThan(w.s.requestList, b, n) ==> MoreThan(r, b, n))
            && (Untouched(w.s.requestList, b, n) && n == Total(w, b) ==> Untouched(r, b, n))
  {
    hide Sort, Chunks, InFlight, BusyOk, FreeOk, AskedOk, EntryOk;
    var lost := w.s.busyMiners[m];
    var i := Find(w.s.requestList, lost.requestId);
    JobIsOut(h, w, m);
    if i != -1 {
      var q := w.s.requestList[i];
      var q1 := q.(remainingJobs := q.remainingJobs + [lost.job]);
      ResortedKeeps(w.s.requestList, i, q1);
      NeverMoreThanTotal(h, w, a);
      NeverMoreThanTotal(h, w, b);
      assert OnReassign(w.s, m).requestList == Resorted(w.s.requestList, i, q1);
      assert AtMost(Resorted(w.s.requestList, i, q1), a, n);
      SortedPrecedes(Resorted(w.s.requestList, i, q1), a, b, n);
    }
  }

  lemma RemovedPair(list: seq<ClientRequest>, id: nat, a: nat, b: nat, n: nat)
    requires DistinctIds(list)
    ensures var r := WithoutRequest(list, id);
            && (Precedes(list, a, b) ==> Precedes(r, a, b))
            && (MoreThan(list, b, n) ==> MoreThan(r, b, n))
            && (Untouched(list, b, n) ==> Untouched(r, b, n))
  {
    WithoutRequestKeeps(list, id);
    if Precedes(list, a, b) {
      WithoutRequestKeepsOrder(list, id, a, b);
    }
  }

  lemma ArrivedPair(list: seq<ClientRequest>, q: ClientRequest, a: nat, b: nat, n: nat)
    requires a != q.requestId && b != q.requestId
    ensures var r := list + [q];
            && (Precedes(list, a, b) ==> Precedes(r, a, b))
            && (MoreThan(list, b, n) ==> MoreThan(r, b, n))
            && (Untouched(list, b, n) ==> Untouched(r, b, n))
  {
  }

  // A request that waits is not at the head, so it is not the one a job is taken from.
  lemma WaitingIsNotDispatched(w: System, a: nat, b: nat)
    requires CanDispatch(w.s) && Live(w, a) && Precedes(w.s.requestList, a, b)
    ensures Dispatched(w.s).requestId != b
  {
  }

  // Whatever happens, a waiting request keeps waiting while both are live.
  lemma EventKeepsWaiting(h: Hash, w: System, e: Event, a: nat, b: nat, n: nat)
    requires JobsOk(h, w) && Enabled(h, w, e) && Live(w, a) && Live(w, b) && a != b && Total(w, a) <= n
    requires Precedes(w.s.requestList, a, b) && Waits(w.s.requestList, a, b, n)
    requires MoreThan(w.s.requestList, b, n) || n == Total(w, b)
    ensures e.Dispatch? ==> Dispatched(w.s).requestId != b
    ensures var r := After(h, w, e).s.requestList;
            && Precedes(r, a, b)
            && (MoreThan(w.s.requestList, b, n) ==> MoreThan(r, b, n))
            && (Untouched(w.s.requestList, b, n) && n == Total(w, b) ==> Untouched(r, b, n))
  {
    hide EntryOk, Sort, Chunks, Precedes, MoreThan, Untouched, WithoutRequest;
    match e
    case Join(m) =>
    case Dispatch =>
      WaitingIsNotDispatched(w, a, b);
      DispatchedPair(h, w, a, b, n);
    case Request(clientId, data, lower, upper) =>
      ArrivedPair(w.s.requestList, ClientRequest(|w.asked|, Chunks(lower, upper)), a, b, n);
    case Lost(connId, id) =>
      if connId !in w.s.freeMiners && connId in w.s.busyMiners {
        ReturnedPair(h, w, connId, a, b, n);
      } else if connId !in w.s.freeMiners && id != -1 {
        RemovedPair(w.s.requestList, id, a, b, n);
      }
    case Result(m, r) =>
      if Completes(w.s, m) {
        RemovedPair(w.s.requestList, w.s.busyMiners[m].requestId, a, b, n);
      }
  }

  // ---------- Arrival order ----------

  // The earlier of two requests, when it did not come with more jobs
  ghost predicate GoesFirst(w: System, a: nat, b: nat) {
    a < b && Live(w, a) && Live(w, b) && Total(w, a) <= Total(w, b)
  }

  // No job of the later one has been dispatched, and it is behind in the list.
  ghost predicate InTurn(w: System, a: nat, b: nat)
    requires b < |w.asked|
  {
    Precedes(w.s.requestList, a, b) && Untouched(w.s.requestList, b, Total(w, b))
  }

  ghost predicate Fair(w: System) {
    forall a: nat, b: nat | GoesFirst(w, a, b) :: InTurn(w, a, b)
  }

  lemma LiveBefore(h: Hash, w: System, e: Event, id: nat)
    requires JobsOk(h, w) && Enabled(h, w, e) && Live(After(h, w, e), id) && id < |w.asked|
    ensures Live(w, id) && After(h, w, e).asked[id] == w.asked[id]
  {
    hide EntryOk, Sort, Chunks;
    var v := After(h, w, e);
    EventKeepsJobs(h, w, e);
    assert v.s.requestInfo.Keys <= w.s.requestInfo.Keys + {|w.asked|};
    assert id in v.s.requestInfo.Keys;
  }

  lemma EventKeepsFair(h: Hash, w: System, e: Event)
    requires JobsOk(h, w) && Fair(w) && Enabled(h, w, e)
    ensures Fair(After(h, w, e))
  {
    hide JobsOk, InTurn, After;
    var v := After(h, w, e);
    forall a: nat, b: nat | GoesFirst(v, a, b)
      ensures InTurn(v, a, b)
    {
      EventKeepsTurn(h, w, e, a, b);
    }
  }

  lemma EventKeepsTurn(h: Hash, w: System, e: Event, a: nat, b: nat)
    requires JobsOk(h, w) && Fair(w) && Enabled(h, w, e) && GoesFirst(After(h, w, e), a, b)
    ensures InTurn(After(h, w, e), a, b)
  {
    hide JobsOk, Sort, Chunks, Precedes, Untouched;
    var v := After(h, w, e);
    if b < |w.asked| {
      LiveBefore(h, w, e, a);
      LiveBefore(h, w, e, b);
      assert GoesFirst(w, a, b) && InTurn(w, a, b);
      EventKeepsWaiting(h, w, e, a, b, Total(w, b));
    } else {
      NewestIsLast(h, w, e, a);
    }
  }

  lemma NewestIsLast(h: Hash, w: System, e: Event, a: nat)
    requires JobsOk(h, w) && Enabled(h, w, e) && a < |w.asked| < |After(h, w, e).asked|
    ensures |After(h, w, e).asked| == |w.asked| + 1 && InTurn(After(h, w, e), a, |w.asked|)
  {
    IdsBelow(h, w);
    assert e.Request?;
  }

  ghost predicate AnsweredBefore(replies: seq<Reply>, i: nat, a: nat)
    requires i <= |replies|
  {
    exists k :: 0 <= k < i && replies[k].requestId == a
  }

  // An answer to the later request comes after the earlier one was answered or withdrawn.
  ghost predicate AnswersInOrder(w: System) {
    forall i: nat, a: nat | i < |w.replies| && MustWaitFor(w, w.replies[i].requestId, a) ::
      a in w.withdrawn || AnsweredBefore(w.replies, i, a)
  }

  ghost predicate MustWaitFor(w: System, b: nat, a: nat) {
    a < b < |w.asked| && Total(w, a) <= Total(w, b)
  }

  lemma EventKeepsAnswerOrder(h: Hash, w: System, e: Event)
    requires Inv(h, w) && Fair(w) && AnswersInOrder(w) && Enabled(h, w, e)
    ensures AnswersInOrder(After(h, w, e))
  {
    hide JobsOk, Sort, Chunks, Fair, WithoutRequest;
    var v := After(h, w, e);
    forall i: nat, a: nat | i < |v.replies| && MustWaitFor(v, v.replies[i].requestId, a)
      ensures a in v.withdrawn || AnsweredBefore(v.replies, i, a)
    {
      if i < |w.replies| {
        assert w.replies[i] in w.replies && ReplyOk(h, w, w.replies[i]);
        assert MustWaitFor(w, w.replies[i].requestId, a);
        if AnsweredBefore(w.replies, i, a) {
          var k :| 0 <= k < i && w.replies[k].requestId == a;
          assert v.replies[k].requestId == a;
        }
      } else {
        AnswerInTurn(h, w, e.miner, a);
        if Answered(w.replies, a) {
          var r :| r in w.replies && r.requestId == a;
          var k :| 0 <= k < |w.replies| && w.replies[k] == r;
          assert v.replies[k].requestId == a;
        }
      }
    }
  }

  // When the last result of b comes in, nothing that b had to wait for is live.
  lemma AnswerInTurn(h: Hash, w: System, m: int, a: nat)
    requires Inv(h, w) && Fair(w) && m in w.s.busyMiners && Completes(w.s, m)
    requires MustWaitFor(w, w.s.busyMiners[m].requestId, a)
    ensures a in w.withdrawn || Answered(w.replies, a)
  {
    hide Chunks, InTurn;
    var b := w.s.busyMiners[m].requestId;
    assert b in Ids(w.s.requestList);
    if a in w.s.requestInfo {
      assert a in Ids(w.s.requestList);
      assert GoesFirst(w, a, b);
      InFlightAfterReturn(w.s.busyMiners, m, b);
      NeverMoreThanTotal(h, w, b);
      assert InTurn(w, a, b);
      InTurnMeansUntouched(w, a, b);
    }
  }

  lemma InTurnMeansUntouched(w: System, a: nat, b: nat)
    requires b < |w.asked| && InTurn(w, a, b)
    ensures Untouched(w.s.requestList, b, Total(w, b))
  {
  }

  lemma {:induction false} RunIsFair(h: Hash, systems: seq<System>, events: seq<Event>, i: nat)
    requires IsRun(h, systems, events) && i < |systems|
    ensures Inv(h, systems[i]) && Fair(systems[i]) && AnswersInOrder(systems[i]) && HeadOnly(systems[i].s.requestList)
  {
    hide JobsOk, AnswersOk, Sort, Chunks, After;
    RunKeepsInv(h, systems, events, i);
    if i > 0 {
      RunIsFair(h, systems, events, i - 1);
      EventKeepsFair(h, systems[i - 1], events[i - 1]);
      EventKeepsAnswerOrder(h, systems[i - 1], events[i - 1]);
      EventKeepsHeadOnly(h, systems[i - 1], events[i - 1]);
    }
  }

  /** In every run, with or without losses: while an earlier request that came with no more jobs is live, no job of
      the later one is dispatched. */
  lemma NoJobOutOfTurn(h: Hash, systems: seq<System>, events: seq<Event>, i: nat, a: nat, b: nat)
    requires IsRun(h, systems, events) && i < |events| && events[i].Dispatch?
    requires GoesFirst(systems[i], a, b)
    ensures CanDispatch(systems[i].s) && Dispatched(systems[i].s).requestId != b
    ensures Untouched(systems[i].s.requestList, b, Total(systems[i], b))
  {
    RunIsFair(h, systems, events, i);
    assert InTurn(systems[i], a, b);
    WaitingIsNotDispatched(systems[i], a, b);
  }

  /** So answers come in the order of arrival: when a request is answered, every earlier one that came with no more
      jobs has been answered before it, or withdrawn. */
  lemma EarlierIsAnsweredFirst(h: Hash, systems: seq<System>, events: seq<Event>, i: nat, k: nat, a: nat)
    requires IsRun(h, systems, events) && i < |systems| && k < |systems[i].replies|
    requires MustWaitFor(systems[i], systems[i].replies[k].requestId, a)
    ensures a in systems[i].withdrawn || AnsweredBefore(systems[i].replies, k, a)
  {
    RunIsFair(h, systems, events, i);
  }

  // ---------- Short requests overtake long ones ----------

  // How many jobs of request l are dispatched by the events from i to j
  ghost function DispatchesOf(systems: seq<System>, events: seq<Event>, l: nat, i: nat, j: nat): nat
    requires |systems| == |events| + 1 && i <= j < |systems|
    decreases j
  {
    if i == j then 0
    else
      DispatchesOf(systems, events, l, i, j - 1)
      + if events[j - 1].Dispatch? && CanDispatch(systems[j - 1].s) && Dispatched(systems[j - 1].s).requestId == l
        then 1 else 0
  }

  // Either no job of l has been dispatched yet, and l is still far longer than s, or one has, and l waits for s.
  ghost predicate Overtaking(w: System, s: nat, l: nat, n: nat, k: nat) {
    || (k == 0 && MoreThan(w.s.requestList, l, n + 1))
    || (k <= 1 && MoreThan(w.s.requestList, l, n) && Precedes(w.s.requestList, s, l))
  }

  // A job of the long request itself is dispatched: it is still longer, and from now on behind.
  lemma LongIsDispatched(h: Hash, w: System, s: nat, l: nat, n: nat)
    requires JobsOk(h, w) && CanDispatch(w.s) && Live(w, s) && s != l && Total(w, s) <= n
    requires Dispatched(w.s).requestId == l && MoreThan(w.s.requestList, l, n + 1)
    ensures MoreThan(OnDispatch(w.s).requestList, l, n) && Precedes(OnDispatch(w.s).requestList, s, l)
  {
    hide Sort, Chunks, InFlight;
    var q := w.s.requestList[0];
    var q1 := q.(remainingJobs := q.remainingJobs[1..]);
    ResortedKeeps(w.s.requestList, 0, q1);
    NeverMoreThanTotal(h, w, s);
    assert OnDispatch(w.s).requestList == Resorted(w.s.requestList, 0, q1);
    SortedPrecedes(Resorted(w.s.requestList, 0, q1), s, l, n);
  }

  lemma EventKeepsLong(h: Hash, w: System, e: Event, l: nat, n: nat)
    requires JobsOk(h, w) && Enabled(h, w, e) && MoreThan(w.s.requestList, l, n) && l < |w.asked|
    requires e.Dispatch? ==> Dispatched(w.s).requestId != l
    ensures MoreThan(After(h, w, e).s.requestList, l, n)
  {
    hide EntryOk, Sort, Chunks;
    var list := w.s.requestList;
    match e
    case Join(m) =>
    case Dispatch =>
      ResortedKeeps(list, 0, list[0].(remainingJobs := list[0].remainingJobs[1..]));
    case Request(clientId, data, lower, upper) =>
    case Lost(connId, id) =>
      if connId !in w.s.freeMiners && connId in w.s.busyMiners {
        var i := Find(list, w.s.busyMiners[connId].requestId);
        if i != -1 {
          ResortedKeeps(list, i, list[i].(remainingJobs := list[i].remainingJobs + [w.s.busyMiners[connId].job]));
        }
      } else if connId !in w.s.freeMiners && id != -1 {
        WithoutRequestKeeps(list, id);
      }
    case Result(m, r) =>
      if Completes(w.s, m) {
        WithoutRequestKeeps(list, w.s.busyMiners[m].requestId);
      }
  }

  lemma EventKeepsOvertaking(h: Hash, w: System, e: Event, s: nat, l: nat, n: nat, k: nat)
    requires JobsOk(h, w) && Enabled(h, w, e) && Live(w, s) && Live(w, l) && s != l && Total(w, s) == n
    requires Overtaking(w, s, l, n, k)
    ensures var out := if e.Dispatch? && Dispatched(w.s).requestId == l then 1 else 0;
            Overtaking(After(h, w, e), s, l, n, k + out)
  {
    hide JobsOk, Sort, Chunks, MoreThan, Precedes;
    if MoreThan(w.s.requestList, l, n) && Precedes(w.s.requestList, s, l) {
      EventKeepsWaiting(h, w, e, s, l, n);
    } else if e.Dispatch? && Dispatched(w.s).requestId == l {
      LongIsDispatched(h, w, s, l, n);
    } else {
      EventKeepsLong(h, w, e, l, n + 1);
    }
  }

  /** Shortest remaining time first: once request s is live while l has more than one job more left than s came with,
      at most one further job of l is dispatched for as long as s and l are both live, whatever is lost meanwhile. */
  lemma {:induction false} ShortOvertakesLong(h: Hash, systems: seq<System>, events: seq<Event>, i: nat, j: nat,
                                              s: nat, l: nat)
    requires IsRun(h, systems, events) && i <= j < |systems| && s != l
    requires forall k | i <= k <= j :: Live(systems[k], s) && Live(systems[k], l)
    requires Live(systems[i], s) && MoreThan(systems[i].s.requestList, l, Total(systems[i], s) + 1)
    ensures DispatchesOf(systems, events, l, i, j) <= 1
    ensures Live(systems[j], s) && systems[j].asked[s] == systems[i].asked[s]
    ensures Overtaking(systems[j], s, l, Total(systems[j], s), DispatchesOf(systems, events, l, i, j))
    decreases j
  {
    hide JobsOk, AnswersOk, Sort, Chunks, MoreThan, Precedes;
    if i < j {
      ShortOvertakesLong(h, systems, events, i, j - 1, s, l);
      RunKeepsInv(h, systems, events, j - 1);
      var w, e := systems[j - 1], events[j - 1];
      assert Live(w, s) && Live(w, l) && Live(systems[j], s);
      LiveBefore(h, w, e, s);
      EventKeepsOvertaking(h, w, e, s, l, Total(w, s), DispatchesOf(systems, events, l, i, j - 1));
    }
  }
}
