/**
 The scheduler of the mining server (`bitcoin/server/server.go`). `SchedulerState` and the functions on it are the
 specification, one for each arm of the `select`; class `Scheduler` performs the arms in place.
 */
module Scheduling {
  import opened Mining
  import opened Sorting

  datatype ClientRequest = ClientRequest(requestId: nat, remainingJobs: seq<Job>)

  datatype RequestInfo = RequestInfo(clientId: int, message: string, results: seq<Best>, totalNum: int)

  datatype JobInfo = JobInfo(requestId: nat, job: Job)

  datatype SchedulerState = SchedulerState(
    requestList: seq<ClientRequest>,
    requestInfo: map<nat, RequestInfo>,
    freeMiners: seq<int>,
    busyMiners: map<int, JobInfo>)

  const IDLE: SchedulerState := SchedulerState([], map[], [], map[])

  // Shortest remaining time first; among equals, the request that arrived first.
  predicate ByRemainingJobs(a: ClientRequest, b: ClientRequest) {
    || |a.remainingJobs| < |b.remainingJobs|
    || (|a.remainingJobs| == |b.remainingJobs| && a.requestId <= b.requestId)
  }

  predicate ByHash(a: Best, b: Best) {
    a.hash <= b.hash
  }

  function SortList(list: seq<ClientRequest>): seq<ClientRequest> {
    Sort(ByRemainingJobs, list)
  }

  // findByRequestId
  function Find(list: seq<ClientRequest>, id: int): (i: int)
    ensures -1 <= i < |list|
    ensures i == -1 ==> forall q | q in list :: q.requestId != id
    ensures i != -1 ==> list[i].requestId == id
  {
    if list == [] then -1
    else if list[0].requestId == id then 0
    else
      var i := Find(list[1..], id);
      if i == -1 then -1 else i + 1
  }

  function WithoutRequest(list: seq<ClientRequest>, id: int): seq<ClientRequest> {
    var i := Find(list, id);
    if i == -1 then list else list[..i] + list[i + 1..]
  }

  // ---------- The arms ----------

  function OnJoin(s: SchedulerState, miner: int): SchedulerState {
    s.(freeMiners := s.freeMiners + [miner])
  }

  function WithoutFree(s: SchedulerState, i: int): SchedulerState
    requires 0 <= i < |s.freeMiners|
  {
    s.(freeMiners := s.freeMiners[..i] + s.freeMiners[i + 1..])
  }

  // The job of a lost miner goes back to its request. When the request is gone, the entry of the miner stays.
  function OnReassign(s: SchedulerState, miner: int): SchedulerState
    requires miner in s.busyMiners
  {
    var lost := s.busyMiners[miner];
    var i := Find(s.requestList, lost.requestId);
    if i == -1 then s
    else
      var q := s.requestList[i];
      s.(requestList := SortList(s.requestList[i := q.(remainingJobs := q.remainingJobs + [lost.job])]),
         busyMiners := s.busyMiners - {miner})
  }

  function RequestRemoved(s: SchedulerState, id: int): SchedulerState {
    s.(requestList := WithoutRequest(s.requestList, id), requestInfo := s.requestInfo - {id})
  }

  function OnRequest(s: SchedulerState, id: nat, clientId: int, data: string, jobs: seq<Job>): SchedulerState {
    s.(requestList := s.requestList + [ClientRequest(id, jobs)],
       requestInfo := s.requestInfo[id := RequestInfo(clientId, data, [], |jobs|)])
  }

  // What the scheduler believes the miner works on: a missing entry reads as request 0.
  function WorkOf(s: SchedulerState, miner: int): JobInfo {
    if miner in s.busyMiners then s.busyMiners[miner] else JobInfo(0, Job(0, 0))
  }

  // A result for a request that is gone changes nothing: not even the miner becomes free.
  predicate Ignored(s: SchedulerState, miner: int) {
    WorkOf(s, miner).requestId !in s.requestInfo
  }

  function Recorded(s: SchedulerState, miner: int, r: Best): SchedulerState
    requires !Ignored(s, miner)
  {
    var id := WorkOf(s, miner).requestId;
    var info := s.requestInfo[id];
    s.(requestInfo := s.requestInfo[id := info.(results := info.results + [r])],
       busyMiners := s.busyMiners - {miner},
       freeMiners := s.freeMiners + [miner])
  }

  // Whether the result is the last one its request waits for
  predicate Completes(s: SchedulerState, miner: int) {
    && !Ignored(s, miner)
    && var info := s.requestInfo[WorkOf(s, miner).requestId];
       |info.results| + 1 == info.totalNum
  }

  function OnResult(s: SchedulerState, miner: int, r: Best): SchedulerState {
    if Ignored(s, miner) then s
    else if Completes(s, miner) then RequestRemoved(Recorded(s, miner, r), WorkOf(s, miner).requestId)
    else Recorded(s, miner, r)
  }

  // What the client of a completed request is sent
  function Answer(results: seq<Best>): Best
    requires results != []
  {
    SortPermutes(ByHash, results);
    SameElements(Sort(ByHash, results), results);
    Sort(ByHash, results)[0]
  }

  predicate CanDispatch(s: SchedulerState) {
    s.requestList != [] && s.requestList[0].remainingJobs != [] && s.freeMiners != []
  }

  function Dispatched(s: SchedulerState): JobInfo
    requires CanDispatch(s)
  {
    JobInfo(s.requestList[0].requestId, s.requestList[0].remainingJobs[0])
  }

  function OnDispatch(s: SchedulerState): SchedulerState
    requires CanDispatch(s)
  {
    var q := s.requestList[0];
    s.(freeMiners := s.freeMiners[1..],
       busyMiners := s.busyMiners[s.freeMiners[0] := Dispatched(s)],
       requestList := SortList(s.requestList[0 := q.(remainingJobs := q.remainingJobs[1..])]))
  }

  // ---------- The loss of a connection, as the reading loop classifies it ----------

  function IndexOfMiner(miners: seq<int>, m: int): (i: int)
    ensures -1 <= i < |miners|
    ensures i == -1 <==> m !in miners
    ensures i != -1 ==> miners[i] == m
  {
    if miners == [] then -1
    else if miners[0] == m then 0
    else
      var i := IndexOfMiner(miners[1..], m);
      if i == -1 then -1 else i + 1
  }

  // When a client is lost, the map is searched in no particular order for one of its requests.
  predicate MayDrop(s: SchedulerState, connId: int, id: int) {
    if connId in s.freeMiners || connId in s.busyMiners then id == -1
    else if id == -1 then forall k | k in s.requestInfo :: s.requestInfo[k].clientId != connId
    else id in s.requestInfo && s.requestInfo[id].clientId == connId
  }

  function OnLost(s: SchedulerState, connId: int, id: int): SchedulerState {
    if connId in s.freeMiners then WithoutFree(s, IndexOfMiner(s.freeMiners, connId))
    else if connId in s.busyMiners then OnReassign(s, connId)
    else if id == -1 then s
    else RequestRemoved(s, id)
  }

  lemma {:induction false} FirstFind(list: seq<ClientRequest>, id: int, i: nat)
    requires i < |list| && list[i].requestId == id && forall j | 0 <= j < i :: list[j].requestId != id
    ensures Find(list, id) == i
  {
    if i > 0 {
      FirstFind(list[1..], id, i - 1);
    }
  }

  lemma {:induction false} FirstMiner(miners: seq<int>, m: int, i: nat)
    requires i < |miners| && miners[i] == m && forall j | 0 <= j < i :: miners[j] != m
    ensures IndexOfMiner(miners, m) == i
  {
    if i > 0 {
      FirstMiner(miners[1..], m, i - 1);
    }
  }

  // ---------- The event loop ----------

  class Scheduler {
    var requestList: seq<ClientRequest>
    var requestInfo: map<nat, RequestInfo>
    var freeMiners: seq<int>
    var busyMiners: map<int, JobInfo>

    ghost function State(): SchedulerState
      reads this
    {
      SchedulerState(requestList, requestInfo, freeMiners, busyMiners)
    }

    constructor ()
      ensures State() == IDLE
    {
      requestList, requestInfo, freeMiners, busyMiners := [], map[], [], map[];
    }

    method FindByRequestId(id: int) returns (index: int)
      ensures index == Find(requestList, id)
    {
      for i := 0 to |requestList|
        invariant forall j | 0 <= j < i :: requestList[j].requestId != id
      {
        if requestList[i].requestId == id {
          FirstFind(requestList, id, i);
          return i;
        }
      }
      return -1;
    }

    method RemoveRequest(id: int)
      modifies this`requestInfo, this`requestList
      ensures State() == RequestRemoved(old(State()), id)
    {
      requestInfo := requestInfo - {id};
      var index := FindByRequestId(id);
      if index == -1 {
        return;
      }
      requestList := requestList[..index] + requestList[index + 1..];
    }

    method HandleJoin(miner: int)
      modifies this`freeMiners
      ensures State() == OnJoin(old(State()), miner)
    {
      freeMiners := freeMiners + [miner];
    }

    method HandleReassign(miner: int)
      requires miner in busyMiners
      modifies this`requestList, this`busyMiners
      ensures State() == OnReassign(old(State()), miner)
    {
      var index := FindByRequestId(busyMiners[miner].requestId);
      if index == -1 {
        return;
      }
      var job := busyMiners[miner].job;
      var q := requestList[index];
      requestList := requestList[index := q.(remainingJobs := q.remainingJobs + [job])];
      requestList := SortList(requestList);
      busyMiners := busyMiners - {miner};
    }

    // The search of the closeClientChan arm
    method FindClient(clientId: int) returns (id: int)
      ensures if id == -1 then forall k | k in requestInfo :: requestInfo[k].clientId != clientId
              else id in requestInfo && requestInfo[id].clientId == clientId
    {
      id := -1;
      var keys := requestInfo.Keys;
      while exists k :: k in keys
        invariant keys <= requestInfo.Keys
        invariant forall k | k in requestInfo && k !in keys :: requestInfo[k].clientId != clientId
        decreases keys
      {
        var k :| k in keys;
        keys := keys - {k};
        if requestInfo[k].clientId == clientId {
          return k;
        }
      }
    }

    // The loss of a connection: of a free miner, of a busy one, or of a client
    method HandleLost(connId: int) returns (id: int)
      modifies this
      ensures MayDrop(old(State()), connId, id) && State() == OnLost(old(State()), connId, id)
    {
      var index := -1;
      for i := 0 to |freeMiners|
        invariant index == -1 && State() == old(State())
        invariant forall j | 0 <= j < i :: freeMiners[j] != connId
      {
        if freeMiners[i] == connId {
          FirstMiner(freeMiners, connId, i);
          index := i;
          break;
        }
      }
      id := -1;
      if index != -1 {
        freeMiners := freeMiners[..index] + freeMiners[index + 1..];
      } else if connId in busyMiners {
        HandleReassign(connId);
      } else {
        id := FindClient(connId);
        if id != -1 {
          RemoveRequest(id);
        }
      }
    }

    method HandleRequest(id: nat, clientId: int, data: string, lower: nat, upper: nat)
      requires lower < TWO_TO_64 && upper < TWO_TO_64 && Stops(lower, upper)
      modifies this`requestList, this`requestInfo
      ensures State() == OnRequest(old(State()), id, clientId, data, Jobs(lower, upper))
      ensures requestList == old(requestList) + [ClientRequest(id, Jobs(lower, upper))]
    {
      var jobs := Split(lower, upper);
      requestList := requestList + [ClientRequest(id, jobs)];
      requestInfo := requestInfo[id := RequestInfo(clientId, data, [], |jobs|)];
    }

    method HandleResult(miner: int, r: Best) returns (answered: bool, answer: Best)
      modifies this
      ensures State() == OnResult(old(State()), miner, r)
      ensures var id := if miner in old(busyMiners) then old(busyMiners)[miner].requestId else 0;
              if id in old(requestInfo) then
                && freeMiners == old(freeMiners) + [miner] && busyMiners == old(busyMiners) - {miner}
                && var info := old(requestInfo)[id];
                   requestInfo == if answered then old(requestInfo) - {id}
                                  else old(requestInfo)[id := info.(results := info.results + [r])]
              else
                State() == old(State())
      ensures answered == Completes(old(State()), miner)
      ensures answered ==> answer == Answer(old(requestInfo)[WorkOf(old(State()), miner).requestId].results + [r])
    {
      answered, answer := false, r;
      var id := if miner in busyMiners then busyMiners[miner].requestId else 0;
      if id !in requestInfo {
        return;
      }
      var info := requestInfo[id];
      info := info.(results := info.results + [r]);
      requestInfo := requestInfo[id := info];
      busyMiners := busyMiners - {miner};
      freeMiners := freeMiners + [miner];
      if |requestInfo[id].results| == requestInfo[id].totalNum {
        answered, answer := true, Answer(requestInfo[id].results);
        RemoveRequest(id);
      }
    }

    // The default arm; `sent` is what the miner is asked to do.
    method TryDispatch() returns (sent: bool, miner: int, info: JobInfo)
      modifies this`requestList, this`freeMiners, this`busyMiners
      ensures sent == CanDispatch(old(State()))
      ensures State() == if sent then OnDispatch(old(State())) else old(State())
      ensures sent ==> miner == old(freeMiners)[0] && freeMiners == old(freeMiners)[1..]
      ensures sent ==> var q := old(requestList)[0]; info == JobInfo(q.requestId, q.remainingJobs[0])
    {
      sent, miner, info := false, 0, JobInfo(0, Job(0, 0));
      if |requestList| == 0 || |requestList[0].remainingJobs| == 0 || |freeMiners| == 0 {
        return;
      }
      sent, miner := true, freeMiners[0];
      freeMiners := freeMiners[1..];
      var q := requestList[0];
      info := JobInfo(q.requestId, q.remainingJobs[0]);
      busyMiners := busyMiners[miner := info];
      requestList := SortList(requestList[0 := q.(remainingJobs := q.remainingJobs[1..])]);
    }
  }
}
