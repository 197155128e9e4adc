/**
 Whole runs of the mining system: requests arrive, miners join, work and get lost, clients leave, in any order.
 Every job and every miner stays accounted for, and every answer is what one search of the whole range would find.
 */
module MiningRuns {
  import opened Mining
  import opened Scheduling
  import opened Sorting

  datatype Asked = Asked(clientId: int, data: string, range: Job)

  // A request message on its way to a miner
  datatype Order = Order(data: string, job: Job)

  datatype Reply = Reply(requestId: nat, clientId: int, best: Best)

  // The scheduler's state, and what happened so far
  datatype System = System(
    s: SchedulerState,
    asked: seq<Asked>,             // every request that arrived, by its number
    orders: map<int, Order>,       // what each miner was last asked to do
    done: map<nat, seq<Job>>,      // the jobs behind the recorded results of each request
    replies: seq<Reply>,
    withdrawn: set<nat>,           // requests dropped with their client
    connected: set<int>,           // miners that joined and have not been lost since
    lost: set<int>)                // connections whose loss was reported

  const START: System := System(IDLE, [], map[], map[], [], {}, {}, {})

  datatype Event =
    | Join(miner: int)
    | Lost(connId: int, requestId: int)
    | Request(clientId: int, data: string, lower: nat, upper: nat)
    | Result(miner: int, best: Best)
    | Dispatch

  // Each miner joins once and searches what it was last asked to; only a busy one sends a result.
  ghost predicate Enabled(h: Hash, w: System, e: Event) {
    match e
    case Join(m) => m !in w.s.freeMiners && m !in w.s.busyMiners
    case Lost(connId, id) => MayDrop(w.s, connId, id)
    case Request(_, _, lower, upper) => lower <= upper < TWO_TO_64 - CHUNK_SIZE
    case Result(m, r) => m in w.s.busyMiners && m in w.orders && IsMinimum(h, w.orders[m].data, w.orders[m].job, r)
    case Dispatch => CanDispatch(w.s)
  }

  function Done(w: System, id: nat): seq<Job> {
    if id in w.done then w.done[id] else []
  }

  // A missing entry reads as the empty message.
  function MessageOf(s: SchedulerState, id: nat): string {
    if id in s.requestInfo then s.requestInfo[id].message else ""
  }

  function AfterJoin(w: System, m: int): System {
    w.(s := OnJoin(w.s, m), connected := w.connected + {m})
  }

  function AfterLost(w: System, connId: int, id: int): System
    requires MayDrop(w.s, connId, id)
  {
    w.(s := OnLost(w.s, connId, id), withdrawn := if id >= 0 then w.withdrawn + {id} else w.withdrawn,
       connected := w.connected - {connId}, lost := w.lost + {connId})
  }

  function AfterRequest(w: System, clientId: int, data: string, lower: nat, upper: nat): System {
    w.(s := OnRequest(w.s, |w.asked|, clientId, data, Chunks(lower, upper)),
       asked := w.asked + [Asked(clientId, data, Job(lower, upper))])
  }

  function AfterResult(w: System, m: int, r: Best): System {
    var done := WorkOf(w.s, m);
    if Ignored(w.s, m) then w
    else
      var info := w.s.requestInfo[done.requestId];
      w.(s := OnResult(w.s, m, r),
         done := w.done[done.requestId := Done(w, done.requestId) + [done.job]],
         replies := if Completes(w.s, m)
                    then w.replies + [Reply(done.requestId, info.clientId, Answer(info.results + [r]))]
                    else w.replies)
  }

  function AfterDispatch(w: System): System
    requires CanDispatch(w.s)
  {
    var sent := Dispatched(w.s);
    w.(s := OnDispatch(w.s), orders := w.orders[w.s.freeMiners[0] := Order(MessageOf(w.s, sent.requestId), sent.job)])
  }

  function After(h: Hash, w: System, e: Event): System
    requires Enabled(h, w, e)
  {
    match e
    case Join(m) => AfterJoin(w, m)
    case Lost(connId, id) => AfterLost(w, connId, id)
    case Request(clientId, data, lower, upper) => AfterRequest(w, clientId, data, lower, upper)
    case Result(m, r) => AfterResult(w, m, r)
    case Dispatch => AfterDispatch(w)
  }

  ghost predicate IsRun(h: Hash, systems: seq<System>, events: seq<Event>) {
    && |systems| == |events| + 1
    && systems[0] == START
    && forall i | 0 <= i < |events| ::
         Enabled(h, systems[i], events[i]) && systems[i + 1] == After(h, systems[i], events[i])
  }

  // ---------- The request list ----------

  ghost predicate DistinctIds(list: seq<ClientRequest>) {
    forall i, j | 0 <= i < j < |list| :: list[i].requestId != list[j].requestId
  }

  function Ids(list: seq<ClientRequest>): set<nat> {
    set q | q in list :: q.requestId
  }

  // Every occurrence of a comes before every occurrence of b.
  ghost predicate Precedes(list: seq<ClientRequest>, a: nat, b: nat) {
    forall i, j | 0 <= i < |list| && 0 <= j < |list| && list[i].requestId == a && list[j].requestId == b :: i < j
  }

  // At most the head has no jobs left.
  ghost predicate HeadOnly(list: seq<ClientRequest>) {
    forall i | 0 < i < |list| :: list[i].remainingJobs != []
  }

  lemma PermutedIds(a: seq<ClientRequest>, b: seq<ClientRequest>)
    requires multiset(a) == multiset(b) && DistinctIds(a)
    ensures DistinctIds(b)
  {
    SameElements(a, b);
    forall i, j | 0 <= i < j < |b|
      ensures b[i].requestId != b[j].requestId
    {
      if b[i].requestId == b[j].requestId {
        assert b[i] in a && b[j] in a;
        assert b[i] == b[j];
        TwiceInMultiset(b, i, j);
        OnceInMultiset(a, b[i]);
      }
    }
  }

  lemma SortListKeeps(list: seq<ClientRequest>)
    requires DistinctIds(list)
    ensures var r := SortList(list);
            && DistinctIds(r) && SortedBy(ByRemainingJobs, r)
            && |r| == |list| && forall q :: q in r <==> q in list
  {
    SortPermutes(ByRemainingJobs, list);
    SortOrders(ByRemainingJobs, list);
    SameElements(SortList(list), list);
    PermutedIds(list, SortList(list));
  }

  // The ids differ, so whatever correct algorithm sorts the list, the result is this one.
  lemma SortIsTheOnlyOne(list: seq<ClientRequest>, t: seq<ClientRequest>)
    requires DistinctIds(list) && multiset(t) == multiset(list) && SortedBy(ByRemainingJobs, t)
    ensures t == SortList(list)
  {
    SortListKeeps(list);
    SortPermutes(ByRemainingJobs, list);
    OnlySorted(ByRemainingJobs, SortList(list), t);
  }

  // One entry is replaced by another with its number, and the list is sorted.
  function Resorted(list: seq<ClientRequest>, i: nat, q: ClientRequest): seq<ClientRequest>
    requires i < |list|
  {
    SortList(list[i := q])
  }

  lemma ResortedKeeps(list: seq<ClientRequest>, i: nat, q: ClientRequest)
    requires i < |list| && DistinctIds(list) && q.requestId == list[i].requestId
    ensures var r := Resorted(list, i, q);
            && DistinctIds(r) && SortedBy(ByRemainingJobs, r) && |r| == |list|
            && (forall p :: p in r <==> p == q || (p in list && p.requestId != q.requestId))
            && Ids(r) == Ids(list)
  {
    var u := list[i := q];
    SortListKeeps(u);
    forall p
      ensures p in u <==> p == q || (p in list && p.requestId != q.requestId)
    {
      if p in u {
        var k :| 0 <= k < |u| && u[k] == p;
        assert k != i ==> list[k] == p;
      }
      if p in list && p.requestId != q.requestId {
        var k :| 0 <= k < |list| && list[k] == p;
        assert u[k] == p;
      }
      assert u[i] == q;
    }
    forall id
      ensures id in Ids(Resorted(list, i, q)) <==> id in Ids(list)
    {
      assert list[i] in list;
      if id in Ids(list) {
        var p :| p in list && p.requestId == id;
        assert id != q.requestId ==> p in Resorted(list, i, q);
      }
      assert q in Resorted(list, i, q);
    }
  }

  lemma WithoutRequestHolds(list: seq<ClientRequest>, id: nat, p: ClientRequest)
    requires DistinctIds(list)
    ensures p in WithoutRequest(list, id) <==> p in list && p.requestId != id
  {
    var i, r := Find(list, id), WithoutRequest(list, id);
    if i != -1 {
      if p in r {
        var k :| 0 <= k < |r| && r[k] == p;
        assert p == list[if k < i then k else k + 1];
      }
      if p in list && p.requestId != id {
        var k :| 0 <= k < |list| && list[k] == p;
        assert r[if k < i then k else k - 1] == p;
      }
    }
  }

  lemma WithoutRequestStaysDistinct(list: seq<ClientRequest>, id: nat)
    requires DistinctIds(list)
    ensures DistinctIds(WithoutRequest(list, id))
  {
  }

  lemma WithoutRequestKeeps(list: seq<ClientRequest>, id: nat)
    requires DistinctIds(list)
    ensures var r := WithoutRequest(list, id);
            && DistinctIds(r)
            && (forall p :: p in r <==> p in list && p.requestId != id)
            && Ids(r) == Ids(list) - {id}
  {
    hide WithoutRequest, DistinctIds;
    WithoutRequestStaysDistinct(list, id);
    forall p
      ensures p in WithoutRequest(list, id) <==> p in list && p.requestId != id
    {
      WithoutRequestHolds(list, id, p);
    }
  }

  // Removing an entry keeps the order of the others, and leaves the head the only one that may be exhausted.
  lemma WithoutRequestKeepsOrder(list: seq<ClientRequest>, id: nat, a: nat, b: nat)
    requires Precedes(list, a, b)
    ensures Precedes(WithoutRequest(list, id), a, b)
    ensures HeadOnly(list) ==> HeadOnly(WithoutRequest(list, id))
  {
  }

  // ---------- Jobs ----------

  function JobsOf(a: Asked): seq<Job> {
    Chunks(a.range.lower, a.range.upper)
  }

  // The jobs of a request that miners are working on
  function InFlight(busy: map<int, JobInfo>, id: nat): set<Job> {
    set m | m in busy && busy[m].requestId == id :: busy[m].job
  }

  ghost predicate OneMinerPerJob(busy: map<int, JobInfo>) {
    forall m, n | m in busy && n in busy && busy[m] == busy[n] :: m == n
  }

  // Remaining, in flight and done together are exactly the jobs of the request.
  ghost predicate Conserved(remaining: seq<Job>, flying: set<Job>, done: seq<Job>, jobs: seq<Job>) {
    multiset(remaining) + multiset(flying) + multiset(done) == multiset(jobs)
  }

  lemma CountConserved(remaining: seq<Job>, flying: set<Job>, done: seq<Job>, jobs: seq<Job>)
    requires Conserved(remaining, flying, done, jobs)
    ensures |remaining| + |flying| + |done| == |jobs|
  {
    assert |multiset(remaining) + multiset(flying) + multiset(done)| == |remaining| + |flying| + |done|;
  }

  lemma JobsDiffer(a: Asked)
    requires a.range.lower <= a.range.upper
    ensures forall x :: multiset(JobsOf(a))[x] <= 1
  {
    ChunksAscend(a.range.lower, a.range.upper);
    forall x
      ensures multiset(JobsOf(a))[x] <= 1
    {
      OnceInMultiset(JobsOf(a), x);
    }
  }

  lemma DispatchConserves(remaining: seq<Job>, flying: set<Job>, done: seq<Job>, jobs: seq<Job>)
    requires Conserved(remaining, flying, done, jobs) && remaining != []
    requires multiset(jobs)[remaining[0]] <= 1
    ensures remaining[0] !in flying
    ensures Conserved(remaining[1..], flying + {remaining[0]}, done, jobs)
  {
    var j, rest := remaining[0], remaining[1..];
    assert remaining == [j] + rest;
    assert multiset(remaining)[j] >= 1;
    assert multiset(remaining)[j] + multiset(flying)[j] <= multiset(jobs)[j];
    assert multiset(flying + {j}) == multiset(flying) + multiset{j};
  }

  lemma ReturnConserves(remaining: seq<Job>, flying: set<Job>, done: seq<Job>, jobs: seq<Job>, j: Job)
    requires Conserved(remaining, flying, done, jobs) && j in flying
    ensures Conserved(remaining + [j], flying - {j}, done, jobs)
    ensures Conserved(remaining, flying - {j}, done + [j], jobs)
  {
  }

  lemma InFlightAfterDispatch(busy: map<int, JobInfo>, m: int, sent: JobInfo, id: nat)
    requires m !in busy
    ensures InFlight(busy[m := sent], id)
         == if id == sent.requestId then InFlight(busy, id) + {sent.job} else InFlight(busy, id)
  {
    var after := busy[m := sent];
    forall j
      ensures j in InFlight(after, id) <==> j in InFlight(busy, id) || (id == sent.requestId && j == sent.job)
    {
      if j in InFlight(busy, id) {
        var n :| n in busy && busy[n] == JobInfo(id, j);
        assert n in after && after[n] == busy[n];
      }
      if id == sent.requestId && j == sent.job {
        assert m in after && after[m] == sent;
      }
    }
  }

  lemma InFlightAfterReturn(busy: map<int, JobInfo>, m: int, id: nat)
    requires OneMinerPerJob(busy) && m in busy
    ensures InFlight(busy - {m}, id)
         == if id == busy[m].requestId then InFlight(busy, id) - {busy[m].job} else InFlight(busy, id)
    ensures busy[m].job in InFlight(busy, busy[m].requestId)
  {
    var after := busy - {m};
    forall j
      ensures j in InFlight(after, id) <==> j in InFlight(busy, id) && JobInfo(id, j) != busy[m]
    {
      if j in InFlight(busy, id) && JobInfo(id, j) != busy[m] {
        var n :| n in busy && busy[n] == JobInfo(id, j);
        assert n in after && after[n] == busy[n];
      }
      if j in InFlight(after, id) {
        var n :| n in after && after[n] == JobInfo(id, j);
        assert n in busy && busy[n] == JobInfo(id, j);
      }
    }
  }

  // ---------- The invariant of jobs and miners ----------

  ghost predicate ResultsOk(h: Hash, data: string, done: seq<Job>, results: seq<Best>) {
    |results| == |done| && forall i | 0 <= i < |done| :: IsMinimum(h, data, done[i], results[i])
  }

  ghost predicate RequestOk(h: Hash, q: ClientRequest, info: RequestInfo, a: Asked, flying: set<Job>, done: seq<Job>) {
    && info.clientId == a.clientId && info.message == a.data && info.totalNum == |JobsOf(a)|
    && Conserved(q.remainingJobs, flying, done, JobsOf(a))
    && ResultsOk(h, a.data, done, info.results) && |done| < info.totalNum
  }

  ghost predicate EntryOk(h: Hash, w: System, q: ClientRequest) {
    && q.requestId in w.s.requestInfo && q.requestId < |w.asked|
    && RequestOk(h, q, w.s.requestInfo[q.requestId], w.asked[q.requestId], InFlight(w.s.busyMiners, q.requestId),
                 Done(w, q.requestId))
  }

  // An entry of which nothing changes
  lemma EntryKept(h: Hash, w: System, v: System, q: ClientRequest)
    requires EntryOk(h, w, q)
    requires q.requestId in v.s.requestInfo && v.s.requestInfo[q.requestId] == w.s.requestInfo[q.requestId]
    requires q.requestId < |v.asked| && v.asked[q.requestId] == w.asked[q.requestId]
    requires InFlight(v.s.busyMiners, q.requestId) == InFlight(w.s.busyMiners, q.requestId)
    requires Done(v, q.requestId) == Done(w, q.requestId)
    ensures EntryOk(h, v, q)
  {
  }

  // The list and the table have the same numbers, and each request accounts for all of its jobs.
  ghost predicate RequestsOk(h: Hash, w: System) {
    && DistinctIds(w.s.requestList)
    && Ids(w.s.requestList) == w.s.requestInfo.Keys
    && forall q | q in w.s.requestList :: EntryOk(h, w, q)
  }

  ghost predicate AskedOk(w: System) {
    && (forall a | a in w.asked :: a.range.lower <= a.range.upper)
    && (forall id | id in w.done :: id < |w.asked|)
  }

  ghost predicate FreeOk(free: seq<int>, busy: map<int, JobInfo>) {
    && (forall i, j | 0 <= i < j < |free| :: free[i] != free[j])
    && (forall m | m in free :: m !in busy)
  }

  ghost predicate BusyOk(w: System) {
    && OneMinerPerJob(w.s.busyMiners)
    && forall m | m in w.s.busyMiners ::
         var info := w.s.busyMiners[m];
         && info.requestId < |w.asked|
         && m in w.orders && w.orders[m] == Order(w.asked[info.requestId].data, info.job)
  }

  ghost predicate JobsOk(h: Hash, w: System) {
    AskedOk(w) && RequestsOk(h, w) && FreeOk(w.s.freeMiners, w.s.busyMiners) && BusyOk(w)
  }

  // ---------- Every event keeps it ----------

  lemma RequestArrives(h: Hash, w: System, clientId: int, data: string, lower: nat, upper: nat)
    requires JobsOk(h, w) && lower <= upper
    ensures JobsOk(h, AfterRequest(w, clientId, data, lower, upper))
  {
    hide EntryOk, Chunks;
    NewEntry(h, w, clientId, data, lower, upper);
    RequestIsListed(h, w, clientId, data, lower, upper, ClientRequest(|w.asked|, Chunks(lower, upper)));
  }

  lemma RequestIsListed(h: Hash, w: System, clientId: int, data: string, lower: nat, upper: nat, q: ClientRequest)
    requires RequestsOk(h, w) && q == ClientRequest(|w.asked|, Chunks(lower, upper))
    requires EntryOk(h, AfterRequest(w, clientId, data, lower, upper), q)
    ensures RequestsOk(h, AfterRequest(w, clientId, data, lower, upper))
  {
    IdsBelow(h, w);
    AppendedKeeps(w.s.requestList, q, |w.asked|);
    forall p | p in w.s.requestList
      ensures EntryOk(h, AfterRequest(w, clientId, data, lower, upper), p)
    {
      OldEntry(h, w, clientId, data, lower, upper, p);
    }
  }

  lemma IdsBelow(h: Hash, w: System)
    requires RequestsOk(h, w)
    ensures forall q | q in w.s.requestList :: q.requestId < |w.asked|
  {
  }

  lemma OldEntry(h: Hash, w: System, clientId: int, data: string, lower: nat, upper: nat, p: ClientRequest)
    requires EntryOk(h, w, p)
    ensures EntryOk(h, AfterRequest(w, clientId, data, lower, upper), p)
  {
  }

  lemma NewEntry(h: Hash, w: System, clientId: int, data: string, lower: nat, upper: nat)
    requires AskedOk(w) && BusyOk(w) && lower <= upper
    ensures EntryOk(h, AfterRequest(w, clientId, data, lower, upper), ClientRequest(|w.asked|, Chunks(lower, upper)))
  {
  }

  lemma AppendedKeeps(list: seq<ClientRequest>, q: ClientRequest, n: nat)
    requires DistinctIds(list) && q.requestId == n && forall p | p in list :: p.requestId < n
    ensures DistinctIds(list + [q]) && Ids(list + [q]) == Ids(list) + {n}
    ensures forall p :: p in list + [q] <==> p in list || p == q
  {
  }

  lemma RequestLeaves(h: Hash, w: System, id: nat)
    requires JobsOk(h, w)
    ensures JobsOk(h, w.(s := RequestRemoved(w.s, id)))
  {
    var v := w.(s := RequestRemoved(w.s, id));
    WithoutRequestKeeps(w.s.requestList, id);
    forall q | q in v.s.requestList
      ensures EntryOk(h, v, q)
    {
      assert EntryOk(h, w, q);
    }
  }

  lemma JobIsDispatched(h: Hash, w: System)
    requires JobsOk(h, w) && CanDispatch(w.s)
    ensures JobsOk(h, AfterDispatch(w))
  {
    hide Conserved, ResultsOk, InFlight, Chunks, Sort, EntryOk;
    var v, m, sent := AfterDispatch(w), w.s.freeMiners[0], Dispatched(w.s);
    var q := w.s.requestList[0];
    ResortedKeeps(w.s.requestList, 0, q.(remainingJobs := q.remainingJobs[1..]));
    assert EntryOk(h, w, q);
    HeadIsDispatched(h, w);
    MinerTakesJob(w, v, m, sent);
    forall p | p in v.s.requestList
      ensures EntryOk(h, v, p)
    {
      if p != q.(remainingJobs := q.remainingJobs[1..]) {
        assert EntryOk(h, w, p);
        OthersWait(h, w, p);
      }
    }
  }

  // The head of the list gives away its first job, which no miner had.
  lemma HeadIsDispatched(h: Hash, w: System)
    requires AskedOk(w) && CanDispatch(w.s) && EntryOk(h, w, w.s.requestList[0])
    requires w.s.freeMiners[0] !in w.s.busyMiners
    ensures var q := w.s.requestList[0];
            && q.requestId < |w.asked|
            && EntryOk(h, AfterDispatch(w), q.(remainingJobs := q.remainingJobs[1..]))
            && Dispatched(w.s).job !in InFlight(w.s.busyMiners, q.requestId)
            && MessageOf(w.s, q.requestId) == w.asked[q.requestId].data
  {
    hide Conserved, ResultsOk, InFlight, Chunks, Sort;
    var q, m, sent := w.s.requestList[0], w.s.freeMiners[0], Dispatched(w.s);
    JobsDiffer(w.asked[q.requestId]);
    DispatchConserves(q.remainingJobs, InFlight(w.s.busyMiners, q.requestId), Done(w, q.requestId),
                      JobsOf(w.asked[q.requestId]));
    InFlightAfterDispatch(w.s.busyMiners, m, sent, q.requestId);
  }

  lemma OthersWait(h: Hash, w: System, p: ClientRequest)
    requires CanDispatch(w.s) && EntryOk(h, w, p) && p.requestId != w.s.requestList[0].requestId
    requires w.s.freeMiners[0] !in w.s.busyMiners
    ensures EntryOk(h, AfterDispatch(w), p)
  {
    hide Conserved, ResultsOk, InFlight, Chunks, Sort;
    InFlightAfterDispatch(w.s.busyMiners, w.s.freeMiners[0], Dispatched(w.s), p.requestId);
  }

  lemma MinerTakesJob(w: System, v: System, m: int, sent: JobInfo)
    requires FreeOk(w.s.freeMiners, w.s.busyMiners) && BusyOk(w)
    requires w.s.freeMiners != [] && m == w.s.freeMiners[0]
    requires sent.requestId < |w.asked| && sent.job !in InFlight(w.s.busyMiners, sent.requestId)
    requires v.s.freeMiners == w.s.freeMiners[1..] && v.s.busyMiners == w.s.busyMiners[m := sent]
    requires v.asked == w.asked && v.orders == w.orders[m := Order(w.asked[sent.requestId].data, sent.job)]
    ensures FreeOk(v.s.freeMiners, v.s.busyMiners) && BusyOk(v)
  {
  }

  lemma JobComesBack(h: Hash, w: System, m: int)
    requires JobsOk(h, w) && m in w.s.busyMiners
    ensures JobsOk(h, w.(s := OnReassign(w.s, m)))
  {
    hide EntryOk, Sort;
    var lost := w.s.busyMiners[m];
    var i := Find(w.s.requestList, lost.requestId);
    if i != -1 {
      var q := w.s.requestList[i];
      var q1 := q.(remainingJobs := q.remainingJobs + [lost.job]);
      ResortedKeeps(w.s.requestList, i, q1);
      forall p | p in OnReassign(w.s, m).requestList
        ensures EntryOk(h, w.(s := OnReassign(w.s, m)), p)
      {
        if p == q1 {
          ReturnedEntry(h, w, m, i);
        } else {
          UnaffectedEntry(h, w, m, p);
        }
      }
    } else {
      assert w.(s := OnReassign(w.s, m)) == w;
    }
  }

  lemma ReturnedEntry(h: Hash, w: System, m: int, i: nat)
    requires BusyOk(w) && m in w.s.busyMiners && i == Find(w.s.requestList, w.s.busyMiners[m].requestId)
    requires EntryOk(h, w, w.s.requestList[i])
    ensures var q := w.s.requestList[i];
            EntryOk(h, w.(s := OnReassign(w.s, m)), q.(remainingJobs := q.remainingJobs + [w.s.busyMiners[m].job]))
  {
    hide InFlight, Sort, Chunks;
    var q := w.s.requestList[i];
    InFlightAfterReturn(w.s.busyMiners, m, q.requestId);
    ReturnConserves(q.remainingJobs, InFlight(w.s.busyMiners, q.requestId), Done(w, q.requestId),
                    JobsOf(w.asked[q.requestId]), w.s.busyMiners[m].job);
  }

  lemma UnaffectedEntry(h: Hash, w: System, m: int, p: ClientRequest)
    requires BusyOk(w) && m in w.s.busyMiners && EntryOk(h, w, p) && p.requestId != w.s.busyMiners[m].requestId
    ensures EntryOk(h, w.(s := OnReassign(w.s, m)), p)
  {
    hide InFlight, Sort, RequestOk;
    InFlightAfterReturn(w.s.busyMiners, m, p.requestId);
  }

  // The state in which a result has been recorded, whether or not it is the last one
  function AfterRecording(w: System, m: int, r: Best): System {
    if Ignored(w.s, m) then w
    else
      var done := WorkOf(w.s, m);
      w.(s := Recorded(w.s, m, r), done := w.done[done.requestId := Done(w, done.requestId) + [done.job]])
  }

  lemma ResultIsGenuine(h: Hash, w: System, m: int, r: Best, done: seq<Job>, results: seq<Best>)
    requires BusyOk(w) && Enabled(h, w, Result(m, r))
    requires ResultsOk(h, w.asked[w.s.busyMiners[m].requestId].data, done, results)
    ensures ResultsOk(h, w.asked[w.s.busyMiners[m].requestId].data, done + [w.s.busyMiners[m].job], results + [r])
  {
  }

  // What the scheduler knows about a request once one more of its results is recorded
  lemma ResultAccounted(h: Hash, w: System, q: ClientRequest, m: int, r: Best)
    requires BusyOk(w) && Enabled(h, w, Result(m, r)) && !Ignored(w.s, m)
    requires EntryOk(h, w, q) && q.requestId == w.s.busyMiners[m].requestId
    ensures var v, job := AfterRecording(w, m, r), w.s.busyMiners[m].job;
            var id := q.requestId;
            && id < |w.asked|
            && Conserved(q.remainingJobs, InFlight(v.s.busyMiners, id), Done(v, id), JobsOf(w.asked[id]))
            && ResultsOk(h, w.asked[id].data, Done(v, id), v.s.requestInfo[id].results)
            && Done(v, id) == Done(w, id) + [job]
  {
    InFlightAfterReturn(w.s.busyMiners, m, q.requestId);
    ReturnConserves(q.remainingJobs, InFlight(w.s.busyMiners, q.requestId), Done(w, q.requestId),
                    JobsOf(w.asked[q.requestId]), w.s.busyMiners[m].job);
    ResultIsGenuine(h, w, m, r, Done(w, q.requestId), w.s.requestInfo[q.requestId].results);
  }

  lemma LiveEntry(h: Hash, w: System, id: nat) returns (q: ClientRequest)
    requires RequestsOk(h, w) && id in w.s.requestInfo
    ensures q in w.s.requestList && q.requestId == id && EntryOk(h, w, q)
  {
    assert id in Ids(w.s.requestList);
    q :| q in w.s.requestList && q.requestId == id;
  }

  lemma ResultFreesMiner(w: System, m: int, r: Best)
    requires FreeOk(w.s.freeMiners, w.s.busyMiners) && BusyOk(w) && m in w.s.busyMiners && !Ignored(w.s, m)
    ensures var v := AfterRecording(w, m, r);
            FreeOk(v.s.freeMiners, v.s.busyMiners) && BusyOk(v)
  {
  }

  lemma ResultIsRecorded(h: Hash, w: System, m: int, r: Best)
    requires JobsOk(h, w) && Enabled(h, w, Result(m, r)) && !Ignored(w.s, m) && !Completes(w.s, m)
    ensures JobsOk(h, AfterRecording(w, m, r))
  {
    hide EntryOk, IsMinimum, InFlight, Chunks, Sort;
    var v := AfterRecording(w, m, r);
    ResultFreesMiner(w, m, r);
    assert v.s.requestInfo.Keys == w.s.requestInfo.Keys;
    forall p | p in v.s.requestList
      ensures EntryOk(h, v, p)
    {
      if p.requestId == w.s.busyMiners[m].requestId {
        RecordedEntry(h, w, m, r, p);
      } else {
        UnrecordedEntry(h, w, m, r, p);
      }
    }
  }

  lemma RecordedEntry(h: Hash, w: System, m: int, r: Best, q: ClientRequest)
    requires JobsOk(h, w) && Enabled(h, w, Result(m, r)) && !Ignored(w.s, m) && !Completes(w.s, m)
    requires q in w.s.requestList && q.requestId == WorkOf(w.s, m).requestId
    ensures EntryOk(h, AfterRecording(w, m, r), q)
  {
    hide Conserved, ResultsOk, InFlight, Chunks, Sort;
    assert EntryOk(h, w, q);
    ResultAccounted(h, w, q, m, r);
  }

  lemma UnrecordedEntry(h: Hash, w: System, m: int, r: Best, q: ClientRequest)
    requires BusyOk(w) && m in w.s.busyMiners && !Ignored(w.s, m)
    requires EntryOk(h, w, q) && q.requestId != w.s.busyMiners[m].requestId
    ensures EntryOk(h, AfterRecording(w, m, r), q)
  {
    hide RequestOk, InFlight;
    InFlightAfterReturn(w.s.busyMiners, m, q.requestId);
    EntryKept(h, w, AfterRecording(w, m, r), q);
  }

  lemma LastResultIsRecorded(h: Hash, w: System, m: int, r: Best)
    requires JobsOk(h, w) && Enabled(h, w, Result(m, r)) && Completes(w.s, m)
    ensures JobsOk(h, AfterResult(w, m, r))
  {
    hide EntryOk, Sort, IsMinimum, WithoutRequest;
    ResultFreesMiner(w, m, r);
    CompletedIsUnlisted(h, w, m, r);
  }

  lemma CompletedIsUnlisted(h: Hash, w: System, m: int, r: Best)
    requires RequestsOk(h, w) && BusyOk(w) && m in w.s.busyMiners && Completes(w.s, m)
    ensures RequestsOk(h, AfterResult(w, m, r))
  {
    hide EntryOk, WithoutRequest, InFlight, Sort;
    var v, id := AfterResult(w, m, r), w.s.busyMiners[m].requestId;
    WithoutRequestKeeps(w.s.requestList, id);
    assert v.s.requestList == WithoutRequest(w.s.requestList, id);
    assert v.s.requestInfo.Keys == w.s.requestInfo.Keys - {id};
    forall p | p in v.s.requestList
      ensures EntryOk(h, v, p)
    {
      OtherEntry(h, w, m, r, p);
    }
  }

  lemma OtherEntry(h: Hash, w: System, m: int, r: Best, p: ClientRequest)
    requires BusyOk(w) && m in w.s.busyMiners && Completes(w.s, m)
    requires EntryOk(h, w, p) && p.requestId != w.s.busyMiners[m].requestId
    ensures EntryOk(h, AfterResult(w, m, r), p)
  {
    hide RequestOk, InFlight, WithoutRequest;
    InFlightAfterReturn(w.s.busyMiners, m, p.requestId);
    EntryKept(h, w, AfterResult(w, m, r), p);
  }

  lemma MinerIsLost(h: Hash, w: System, i: nat)
    requires JobsOk(h, w) && i < |w.s.freeMiners|
    ensures JobsOk(h, w.(s := WithoutFree(w.s, i)))
  {
    hide RequestOk, InFlight;
    var v := w.(s := WithoutFree(w.s, i));
    assert forall k | 0 <= k < |v.s.freeMiners| :: v.s.freeMiners[k] == w.s.freeMiners[if k < i then k else k + 1];
    forall q | q in v.s.requestList
      ensures EntryOk(h, v, q)
    {
      EntryKept(h, w, v, q);
    }
  }

  lemma MinerJoins(h: Hash, w: System, m: int)
    requires JobsOk(h, w) && m !in w.s.freeMiners && m !in w.s.busyMiners
    ensures JobsOk(h, AfterJoin(w, m))
  {
    hide RequestOk, InFlight;
    forall q | q in w.s.requestList
      ensures EntryOk(h, AfterJoin(w, m), q)
    {
      EntryKept(h, w, AfterJoin(w, m), q);
    }
  }

  /** Every event keeps the accounts: for each live request the remaining jobs, the jobs in flight and the jobs done
      are together exactly its chunks, with one genuine result for each job done. */
  lemma EventKeepsJobs(h: Hash, w: System, e: Event)
    requires JobsOk(h, w) && Enabled(h, w, e)
    ensures JobsOk(h, After(h, w, e))
  {
    hide EntryOk, Sort, Chunks, WithoutRequest, IsMinimum;
    match e
    case Join(m) =>
      MinerJoins(h, w, m);
    case Request(clientId, data, lower, upper) =>
      RequestArrives(h, w, clientId, data, lower, upper);
    case Dispatch =>
      JobIsDispatched(h, w);
    case Lost(connId, id) =>
      LossKeepsJobs(h, w, connId, id);
    case Result(m, r) =>
      if !Ignored(w.s, m) {
        if Completes(w.s, m) {
          LastResultIsRecorded(h, w, m, r);
        } else {
          ResultIsRecorded(h, w, m, r);
        }
      }
  }

  lemma LossKeepsJobs(h: Hash, w: System, connId: int, id: int)
    requires JobsOk(h, w) && MayDrop(w.s, connId, id)
    ensures JobsOk(h, AfterLost(w, connId, id))
  {
    hide JobsOk, WithoutFree, OnReassign, RequestRemoved;
    if connId in w.s.freeMiners {
      MinerIsLost(h, w, IndexOfMiner(w.s.freeMiners, connId));
    } else if connId in w.s.busyMiners {
      JobComesBack(h, w, connId);
    } else if id != -1 {
      RequestLeaves(h, w, id);
    }
    SameAccounts(h, w.(s := OnLost(w.s, connId, id)), AfterLost(w, connId, id));
  }

  // The accounts do not look at what is only recorded about losses.
  lemma SameAccounts(h: Hash, w: System, v: System)
    requires JobsOk(h, w) && v == w.(withdrawn := v.withdrawn, connected := v.connected, lost := v.lost)
    ensures JobsOk(h, v)
  {
    hide RequestOk;
    forall q | q in v.s.requestList
      ensures EntryOk(h, v, q)
    {
      assert EntryOk(h, w, q);
    }
  }

  // ---------- Answers ----------

  lemma AnswerIsLeast(results: seq<Best>)
    requires results != []
    ensures Answer(results) in results && forall r | r in results :: Answer(results).hash <= r.hash
  {
    var sorted := Sort(ByHash, results);
    SortPermutes(ByHash, results);
    SameElements(sorted, results);
    SortOrders(ByHash, results);
    forall r | r in results
      ensures sorted[0].hash <= r.hash
    {
      var i :| 0 <= i < |sorted| && sorted[i] == r;
      assert i > 0 ==> ByHash(sorted[0], sorted[i]);
    }
  }

  // The last result of a request is in: its client gets the minimum of the whole range.
  ghost predicate AnswersInFull(h: Hash, w: System, m: int, r: Best) {
    && !Ignored(w.s, m)
    && var id := WorkOf(w.s, m).requestId;
    && id < |w.asked| && w.s.requestInfo[id].clientId == w.asked[id].clientId
    && IsMinimum(h, w.asked[id].data, w.asked[id].range, Answer(w.s.requestInfo[id].results + [r]))
  }

  /** The last result of a request makes its results cover the whole range, so the answer is a nonce of the range
      with the least hash over the range. */
  lemma AnswerIsMinimum(h: Hash, w: System, m: int, r: Best)
    requires JobsOk(h, w) && Enabled(h, w, Result(m, r)) && Completes(w.s, m)
    ensures AnswersInFull(h, w, m, r)
  {
    hide Conserved, IsMinimum, InFlight, Sort, Chunks;
    var id := w.s.busyMiners[m].requestId;
    var q := LiveEntry(h, w, id);
    ResultAccounted(h, w, q, m, r);
    var v := AfterRecording(w, m, r);
    var done, results := Done(v, id), w.s.requestInfo[id].results + [r];
    assert w.asked[id] in w.asked;
    AllDone(q.remainingJobs, InFlight(v.s.busyMiners, id), done, JobsOf(w.asked[id]));
    AnswerIsLeast(results);
    LeastOfMinima(h, w.asked[id].data, w.asked[id].range, done, results, Answer(results));
  }

  lemma AllDone(remaining: seq<Job>, flying: set<Job>, done: seq<Job>, jobs: seq<Job>)
    requires Conserved(remaining, flying, done, jobs) && |done| == |jobs|
    ensures remaining == [] && flying == {}
    ensures forall j :: j in done <==> j in jobs
  {
    CountConserved(remaining, flying, done, jobs);
    SameElements(done, jobs);
  }

  ghost predicate ReplyOk(h: Hash, w: System, r: Reply) {
    && r.requestId < |w.asked| && r.requestId !in w.s.requestInfo
    && var a := w.asked[r.requestId];
       r.clientId == a.clientId && IsMinimum(h, a.data, a.range, r.best)
  }

  ghost predicate Answered(replies: seq<Reply>, id: nat) {
    exists r | r in replies :: r.requestId == id
  }

  // Every request is live, withdrawn or answered, only one of these, and answered only once.
  ghost predicate FatesOk(w: System) {
    && (forall id: nat | id < |w.asked| :: id in w.s.requestInfo || id in w.withdrawn || Answered(w.replies, id))
    && (forall id | id in w.withdrawn :: id !in w.s.requestInfo && id < |w.asked| && !Answered(w.replies, id))
    && (forall i, j | 0 <= i < j < |w.replies| :: w.replies[i].requestId != w.replies[j].requestId)
  }

  ghost predicate AnswersOk(h: Hash, w: System) {
    (forall r | r in w.replies :: ReplyOk(h, w, r)) && FatesOk(w)
  }

  lemma EventKeepsAnswers(h: Hash, w: System, e: Event)
    requires JobsOk(h, w) && AnswersOk(h, w) && Enabled(h, w, e)
    ensures AnswersOk(h, After(h, w, e))
  {
    hide JobsOk, AnswersOk, IsMinimum, OnResult, OnLost, OnRequest, OnDispatch, Chunks, CanDispatch;
    match e
    case Join(m) => SameAnswers(h, w, After(h, w, e));
    case Dispatch => DispatchKeepsAnswers(h, w);
    case Request(clientId, data, lower, upper) => RequestIsLive(h, w, clientId, data, lower, upper);
    case Lost(connId, id) => LossKeepsAnswers(h, w, connId, id);
    case Result(m, r) => ResultKeepsAnswers(h, w, m, r);
  }

  lemma DispatchKeepsAnswers(h: Hash, w: System)
    requires AnswersOk(h, w) && CanDispatch(w.s)
    ensures AnswersOk(h, AfterDispatch(w))
  {
    hide AnswersOk, SortList;
    SameAnswers(h, w, AfterDispatch(w));
  }

  lemma LossKeepsAnswers(h: Hash, w: System, connId: int, id: int)
    requires JobsOk(h, w) && AnswersOk(h, w) && MayDrop(w.s, connId, id)
    ensures AnswersOk(h, AfterLost(w, connId, id))
  {
    hide AnswersOk, EntryOk, SortList, WithoutRequest, IndexOfMiner;
    if connId in w.s.freeMiners || connId in w.s.busyMiners || id == -1 {
      SameAnswers(h, w, AfterLost(w, connId, id));
    } else {
      IdsBelow(h, w);
      assert id in Ids(w.s.requestList);
      RequestIsWithdrawn(h, w, AfterLost(w, connId, id), id);
    }
  }

  lemma ResultKeepsAnswers(h: Hash, w: System, m: int, r: Best)
    requires JobsOk(h, w) && AnswersOk(h, w) && Enabled(h, w, Result(m, r))
    ensures AnswersOk(h, AfterResult(w, m, r))
  {
    hide JobsOk, AnswersOk, IsMinimum, WithoutRequest, Answer;
    var v := AfterResult(w, m, r);
    if Ignored(w.s, m) || !Completes(w.s, m) {
      SameAnswers(h, w, v);
    } else {
      AnswerIsMinimum(h, w, m, r);
      RequestIsAnswered(h, w, v, v.replies[|w.replies|]);
    }
  }

  lemma SameAnswers(h: Hash, w: System, v: System)
    requires AnswersOk(h, w)
    requires v.asked == w.asked && v.withdrawn == w.withdrawn && v.replies == w.replies
    requires v.s.requestInfo.Keys == w.s.requestInfo.Keys
    ensures AnswersOk(h, v)
  {
  }

  lemma RequestIsLive(h: Hash, w: System, clientId: int, data: string, lower: nat, upper: nat)
    requires AnswersOk(h, w)
    ensures AnswersOk(h, AfterRequest(w, clientId, data, lower, upper))
  {
  }

  lemma RequestIsWithdrawn(h: Hash, w: System, v: System, id: nat)
    requires AnswersOk(h, w) && id in w.s.requestInfo && id < |w.asked|
    requires v.asked == w.asked && v.withdrawn == w.withdrawn + {id} && v.replies == w.replies
    requires v.s.requestInfo == w.s.requestInfo - {id}
    ensures AnswersOk(h, v)
  {
  }

  lemma RequestIsAnswered(h: Hash, w: System, v: System, r: Reply)
    requires AnswersOk(h, w) && r.requestId in w.s.requestInfo
    requires v.asked == w.asked && v.withdrawn == w.withdrawn && v.replies == w.replies + [r]
    requires v.s.requestInfo.Keys == w.s.requestInfo.Keys - {r.requestId}
    requires ReplyOk(h, v, r)
    ensures AnswersOk(h, v)
  {
    forall p | p in w.replies
      ensures ReplyOk(h, v, p) && p.requestId != r.requestId
    {
      assert ReplyOk(h, w, p);
      assert p.requestId !in v.s.requestInfo.Keys;
    }
    assert r in v.replies;
    forall id: nat | id < |v.asked|
      ensures id in v.s.requestInfo || id in v.withdrawn || Answered(v.replies, id)
    {
      if Answered(w.replies, id) {
        var p :| p in w.replies && p.requestId == id;
        assert p in v.replies;
      } else if id in w.s.requestInfo && id != r.requestId {
        assert id in v.s.requestInfo.Keys;
      }
    }
    forall i, j | 0 <= i < j < |v.replies|
      ensures v.replies[i].requestId != v.replies[j].requestId
    {
      assert v.replies[i] in w.replies;
    }
  }

  ghost predicate Inv(h: Hash, w: System) {
    JobsOk(h, w) && AnswersOk(h, w)
  }

  lemma {:induction false} RunKeepsInv(h: Hash, systems: seq<System>, events: seq<Event>, i: nat)
    requires IsRun(h, systems, events) && i < |systems|
    ensures Inv(h, systems[i])
  {
    if i > 0 {
      RunKeepsInv(h, systems, events, i - 1);
      EventKeepsJobs(h, systems[i - 1], events[i - 1]);
      EventKeepsAnswers(h, systems[i - 1], events[i - 1]);
    }
  }

  /** Distributed mining refines brute force: whatever the interleaving of dispatches, results, losses and arrivals,
      each request is answered at most once, to the client that asked, with a nonce of its range that attains the
      least hash over the whole range, which is the hash that one search of the range returns. */
  lemma AnswersAreBruteForce(h: Hash, systems: seq<System>, events: seq<Event>, i: nat, k: nat)
    requires IsRun(h, systems, events) && i < |systems| && k < |systems[i].replies|
    ensures var w, r := systems[i], systems[i].replies[k];
            && r.requestId < |w.asked| && r.clientId == w.asked[r.requestId].clientId
            && var a := w.asked[r.requestId];
            && IsMinimum(h, a.data, a.range, r.best)
            && (forall single | IsMinimum(h, a.data, a.range, single) :: r.best.hash == single.hash)
            && forall j | 0 <= j < |w.replies| && w.replies[j].requestId == r.requestId :: j == k
  {
    RunKeepsInv(h, systems, events, i);
    var w, r := systems[i], systems[i].replies[k];
    assert ReplyOk(h, w, r);
    var a := w.asked[r.requestId];
    forall single | IsMinimum(h, a.data, a.range, single)
      ensures r.best.hash == single.hash
    {
      MinimumIsUnique(h, a.data, a.range, r.best, single);
    }
  }

  // ---------- Progress ----------

  lemma EntryHasWork(h: Hash, w: System, q: ClientRequest)
    requires EntryOk(h, w, q)
    ensures q.remainingJobs != [] || InFlight(w.s.busyMiners, q.requestId) != {}
  {
    CountConserved(q.remainingJobs, InFlight(w.s.busyMiners, q.requestId), Done(w, q.requestId),
                   JobsOf(w.asked[q.requestId]));
  }

  // In every run a live request has a job remaining or in flight.
  lemma LiveRequestHasWork(h: Hash, systems: seq<System>, events: seq<Event>, i: nat, q: ClientRequest)
    requires IsRun(h, systems, events) && i < |systems| && q in systems[i].s.requestList
    ensures q.remainingJobs != [] || InFlight(systems[i].s.busyMiners, q.requestId) != {}
  {
    hide IsRun, EntryOk;
    RunKeepsInv(h, systems, events, i);
    assert EntryOk(h, systems[i], q);
    EntryHasWork(h, systems[i], q);
  }

  // So with a miner there and none busy, a job can be dispatched or nothing is left to do.
  lemma NeverStuck(h: Hash, systems: seq<System>, events: seq<Event>, i: nat)
    requires IsRun(h, systems, events) && i < |systems|
    requires systems[i].s.busyMiners == map[] && systems[i].s.freeMiners != []
    ensures CanDispatch(systems[i].s) || systems[i].s.requestList == []
  {
    hide IsRun;
    if systems[i].s.requestList != [] {
      LiveRequestHasWork(h, systems, events, i, systems[i].s.requestList[0]);
    }
  }

  // Twice the jobs still to be dispatched
  function Undispatched(list: seq<ClientRequest>): nat {
    if list == [] then 0 else 2 * |list[0].remainingJobs| + Undispatched(list[1..])
  }

  function LiveMiners(s: SchedulerState): set<int> {
    set m | m in s.busyMiners && s.busyMiners[m].requestId in s.requestInfo
  }

  function Work(s: SchedulerState): nat {
    Undispatched(s.requestList) + |LiveMiners(s)|
  }

  lemma {:induction false} UndispatchedInserted(q: ClientRequest, list: seq<ClientRequest>)
    ensures Undispatched(Insert(ByRemainingJobs, q, list)) == 2 * |q.remainingJobs| + Undispatched(list)
  {
    if list != [] && !ByRemainingJobs(q, list[0]) {
      UndispatchedInserted(q, list[1..]);
    }
  }

  lemma {:induction false} UndispatchedSorted(list: seq<ClientRequest>)
    ensures Undispatched(SortList(list)) == Undispatched(list)
  {
    if list != [] {
      UndispatchedSorted(list[1..]);
      UndispatchedInserted(list[0], SortList(list[1..]));
    }
  }

  lemma {:induction false} UndispatchedWithout(list: seq<ClientRequest>, id: nat, i: nat)
    requires i < |list| && i == Find(list, id)
    ensures Undispatched(list) == Undispatched(WithoutRequest(list, id)) + 2 * |list[i].remainingJobs|
  {
    if i > 0 {
      UndispatchedWithout(list[1..], id, i - 1);
      assert WithoutRequest(list, id) == [list[0]] + WithoutRequest(list[1..], id);
    } else {
      assert WithoutRequest(list, id) == list[1..];
    }
  }

  lemma DispatchLessensWork(h: Hash, w: System)
    requires JobsOk(h, w) && CanDispatch(w.s)
    ensures Work(OnDispatch(w.s)) < Work(w.s)
  {
    var t, q := OnDispatch(w.s), w.s.requestList[0];
    var u := w.s.requestList[0 := q.(remainingJobs := q.remainingJobs[1..])];
    UndispatchedSorted(u);
    assert u[1..] == w.s.requestList[1..];
    assert LiveMiners(t) <= LiveMiners(w.s) + {w.s.freeMiners[0]};
    SubsetSize(LiveMiners(t), LiveMiners(w.s) + {w.s.freeMiners[0]});
  }

  lemma ResultFreesOne(s: SchedulerState, m: int, r: Best)
    requires m in s.busyMiners && !Ignored(s, m)
    ensures |LiveMiners(OnResult(s, m, r))| < |LiveMiners(s)|
  {
    hide WithoutRequest;
    var t := OnResult(s, m, r);
    assert m in LiveMiners(s);
    assert LiveMiners(t) <= LiveMiners(s) - {m};
    SubsetSize(LiveMiners(t), LiveMiners(s) - {m});
  }

  lemma ResultLessensWork(h: Hash, w: System, m: int, r: Best)
    requires JobsOk(h, w) && Enabled(h, w, Result(m, r)) && !Ignored(w.s, m)
    ensures Work(OnResult(w.s, m, r)) < Work(w.s)
  {
    hide LiveMiners, Undispatched, WithoutRequest, EntryOk, IsMinimum, BusyOk, FreeOk, AskedOk;
    var id := w.s.busyMiners[m].requestId;
    ResultFreesOne(w.s, m, r);
    if Completes(w.s, m) {
      var q := LiveEntry(h, w, id);
      UndispatchedWithout(w.s.requestList, id, Find(w.s.requestList, id));
    }
  }

  lemma EventLessensWork(h: Hash, w: System, e: Event)
    requires Inv(h, w) && Enabled(h, w, e) && (e.Dispatch? || (e.Result? && !Ignored(w.s, e.miner)))
    ensures Work(After(h, w, e).s) < Work(w.s)
  {
    hide JobsOk, AnswersOk, Work, OnDispatch, OnResult, IsMinimum;
    match e
    case Dispatch => DispatchLessensWork(h, w);
    case Result(m, r) => ResultLessensWork(h, w, m, r);
  }

  /** Without losses and arrivals the system runs out of work: no stretch of dispatches and results for live requests
      is longer than the measure of work at its start. */
  lemma {:induction false} WorkRunsOut(h: Hash, systems: seq<System>, events: seq<Event>, i: nat, j: nat)
    requires IsRun(h, systems, events) && i <= j < |systems|
    requires forall k | i <= k < j ::
               events[k].Dispatch? || (events[k].Result? && !Ignored(systems[k].s, events[k].miner))
    ensures j - i <= Work(systems[i].s) - Work(systems[j].s)
    decreases j
  {
    hide After, Enabled, Inv, Work;
    if i < j {
      WorkRunsOut(h, systems, events, i, j - 1);
      RunKeepsInv(h, systems, events, j - 1);
      EventLessensWork(h, systems[j - 1], events[j - 1]);
    }
  }
}
