/**
 Read gets what was delivered: from every reachable state of the system, requests to read and receipts alone bring out
 everything that arrived in order, at the server and at each client.
 */
module Reading {
  import opened LspSystem
  import C = ClientSide
  import L = Links
  import M = Messages
  import Loop = ServerLoop
  import S = ServerSide

  // ---------- At the server ----------

  // A data message that the server has not accepted yet arrives undamaged.
  ghost predicate BringsNew(w: System, e: Event) {
    && e.AtServer? && e.serverAction.HandleData? && Enabled(w, e)
    && var a := e.serverAction;
    && Arriving(a.message, a.fault, a.isNumber).Some?
    && a.message.seqNum !in w.srv.conns[e.connId].dup
  }

  /** After a request to read, and after a new message, the channel that Read receives from is empty only when there is
      nothing to read. */
  lemma ReadIsServed(params: M.Params, systems: seq<System>, events: seq<Event>, i: nat)
    requires IsRun(params, systems, events) && i < |events|
    requires events[i] == ServerReadRequest || BringsNew(systems[i], events[i])
    ensures var srv := systems[i + 1].srv;
            srv.readMessages.None? ==> srv.readList == []
  {
    hide Arriving, S.DataArm, S.Pushed, IsRun;
    NextState(params, systems, events, i);
    var e := events[i];
    if e != ServerReadRequest {
      var a := e.serverAction;
      ArrivesAsSent(a.message, a.fault, a.isNumber);
    }
  }

  lemma NextState(params: M.Params, systems: seq<System>, events: seq<Event>, i: nat)
    requires IsRun(params, systems, events) && i < |events|
    ensures |systems| == |events| + 1 && Enabled(systems[i], events[i])
    ensures systems[i + 1] == After(systems[i], events[i])
  {
  }

  lemma OneMore(params: M.Params, systems: seq<System>, events: seq<Event>, e: Event)
    returns (longer: seq<System>, more: seq<Event>)
    requires IsRun(params, systems, events) && Enabled(systems[|events|], e)
    ensures IsRun(params, longer, more) && more == events + [e] && |longer| == |more| + 1
    ensures longer[|more|] == After(systems[|events|], e)
  {
    hide After, Enabled;
    longer, more := systems + [After(systems[|events|], e)], events + [e];
  }

  // Only the server's Read has been at work since.
  ghost predicate OnlyReads(events: seq<Event>, more: seq<Event>) {
    events <= more && forall k | |events| <= k < |more| :: more[k] == ServerReadRequest || more[k] == ServerTake
  }

  lemma ReadRound(w: System)
    requires PushedOk(w) && Waiting(w.srv) != []
    ensures var v := After(w, ServerReadRequest);
            && Enabled(w, ServerReadRequest) && Enabled(v, ServerTake)
            && var u := After(v, ServerTake);
            && u.taken == w.taken + [Waiting(w.srv)[0]] && Waiting(u.srv) == Waiting(w.srv)[1..]
            && u.links == w.links && u.pushed == w.pushed
  {
  }

  // A request to read and a receipt return the message that has waited longest.
  lemma ReadReturnsNext(params: M.Params, systems: seq<System>, events: seq<Event>)
    returns (longer: seq<System>, more: seq<Event>)
    requires IsRun(params, systems, events) && Waiting(systems[|events|].srv) != []
    ensures IsRun(params, longer, more) && more == events + [ServerReadRequest] + [ServerTake]
    ensures var w, u := systems[|events|], longer[|more|];
            && u.taken == w.taken + [Waiting(w.srv)[0]] && Waiting(u.srv) == Waiting(w.srv)[1..]
            && u.links == w.links && u.pushed == w.pushed
  {
    hide Enabled, After, Waiting, IsRun, PushedOk;
    RunShape(params, systems, events);
    RunKeepsInv(params, systems, events, |events|);
    ReadRound(systems[|events|]);
    longer, more := OneMore(params, systems, events, ServerReadRequest);
    longer, more := OneMore(params, longer, more, ServerTake);
  }

  lemma RunShape(params: M.Params, systems: seq<System>, events: seq<Event>)
    requires IsRun(params, systems, events)
    ensures |systems| == |events| + 1
  {
  }

  lemma {:induction false} ReadsReturnPushed(params: M.Params, systems: seq<System>, events: seq<Event>)
    returns (longer: seq<System>, more: seq<Event>)
    requires IsRun(params, systems, events)
    ensures IsRun(params, longer, more) && |longer| == |more| + 1 && OnlyReads(events, more)
    ensures |more| == |events| + 2 * |Waiting(systems[|events|].srv)|
    ensures longer[|more|].taken == systems[|events|].pushed && longer[|more|].links == systems[|events|].links
    decreases |Waiting(systems[|events|].srv)|
  {
    hide Enabled, After, Waiting, IsRun;
    RunShape(params, systems, events);
    RunKeepsInv(params, systems, events, |events|);
    if Waiting(systems[|events|].srv) == [] {
      longer, more := systems, events;
      assert systems[|events|].taken + [] == systems[|events|].taken;
    } else {
      longer, more := ReadReturnsNext(params, systems, events);
      longer, more := ReadsReturnPushed(params, longer, more);
      RunShape(params, longer, more);
    }
  }

  /** So twice as many events as messages wait, requests to read and receipts in turn, bring everything out: of each
      client that then has nothing queued or unacknowledged, Read has returned all that it wrote. */
  lemma ReadsReturnAll(params: M.Params, systems: seq<System>, events: seq<Event>)
    returns (longer: seq<System>, more: seq<Event>)
    requires IsRun(params, systems, events)
    ensures IsRun(params, longer, more) && OnlyReads(events, more)
    ensures |more| == |events| + 2 * |Waiting(systems[|events|].srv)|
    ensures longer[|more|].taken == systems[|events|].pushed && longer[|more|].links == systems[|events|].links
    ensures forall c | c in systems[|events|].links ::
              var l := systems[|events|].links[c];
              l.client.unsentMessages == [] && l.client.window == [] ==>
                M.Payloads(Only(longer[|more|].taken, c)) == l.clientWrote
  {
    hide IsRun, Waiting, Enabled, After, L.Inv, Only;
    RunShape(params, systems, events);
    longer, more := ReadsReturnPushed(params, systems, events);
    var w := systems[|events|];
    RunKeepsInv(params, systems, events, |events|);
    forall c | c in w.links && w.links[c].client.unsentMessages == [] && w.links[c].client.window == []
      ensures M.Payloads(Only(longer[|more|].taken, c)) == w.links[c].clientWrote
    {
      assert LinkOk(w.srv, c, w.links[c]) && InboxOk(w.pushed, c, w.links[c]);
      L.ClientQuietMeansDelivered(w.links[c]);
    }
  }

  // ---------- At a client ----------

  ghost predicate OnlyClientReads(c: int, events: seq<Event>, more: seq<Event>) {
    && events <= more
    && forall k | |events| <= k < |more| :: more[k] == AtClient(c, ReadRequest) || more[k] == AtClient(c, Take)
  }

  // What a client has accepted but Read has not returned
  function Unread(c: C.ClientState): nat {
    |c.receivedRecord| + if c.readPayloads.Some? then 1 else 0
  }

  // Nothing more can be read: the channel is empty and the record does not have the next number.
  predicate NothingToRead(c: C.ClientState) {
    c.readPayloads.None? && c.receiveSeqNum !in M.SeqNums(c.receivedRecord)
  }

  // After a request to read the channel is empty only when there is nothing to read, and no message goes amiss.
  lemma RequestIsServed(c: C.ClientState)
    requires C.ReceiverOk(c)
    ensures var d := C.ToRead(c);
            && (d.readPayloads.None? ==> NothingToRead(d)) && Unread(d) == Unread(c)
            && (c.readPayloads.Some? ==> d == c)
  {
    hide M.SortBySeqNum;
    var sorted := M.SortBySeqNum(c.receivedRecord);
    M.SortKeeps(c.receivedRecord);
    if c.readPayloads.None? && c.receiveSeqNum in M.SeqNums(sorted) {
      var j :| 0 <= j < |sorted| && sorted[j].seqNum == c.receiveSeqNum;
      assert sorted[0] in c.receivedRecord;
    }
  }

  /** The same at a client: after a request to read or any data message its channel is empty only when its record does
      not have the next number. */
  lemma ClientReadIsServed(params: M.Params, systems: seq<System>, events: seq<Event>, i: nat, c: int)
    requires IsRun(params, systems, events) && i < |events| && c in systems[i].links
    requires events[i].AtClient? && events[i].connId == c
    requires var a := events[i].clientAction;
             || a == ReadRequest
             || (a.GetData? && Arriving(a.message, a.fault, a.isNumber).Some?)
    ensures c in systems[i + 1].links
    ensures var d := systems[i + 1].links[c].client;
            d.readPayloads.None? ==> d.receiveSeqNum !in M.SeqNums(d.receivedRecord)
  {
    hide Arriving, IsRun, C.ToRead, LinksOk, PushedOk;
    NextState(params, systems, events, i);
    RunKeepsInv(params, systems, events, i);
    var l := systems[i].links[c];
    ReceivesOk(systems[i], c);
    var a := events[i].clientAction;
    if a == ReadRequest {
      RequestIsServed(l.client);
    } else {
      ArrivesAsSent(a.message, a.fault, a.isNumber);
      L.ClientRecordsReceives(l, a.message);
      RequestIsServed(C.Recorded(l.client, a.message));
    }
  }

  lemma ReceivesOk(w: System, c: int)
    requires Inv(w) && c in w.links
    ensures L.Inv(w.links[c]) && C.ReceiverOk(w.links[c].client)
  {
    assert LinkOk(w.srv, c, w.links[c]);
  }

  lemma {:induction false} ClientReadsOn(params: M.Params, systems: seq<System>, events: seq<Event>, c: int)
    returns (longer: seq<System>, more: seq<Event>)
    requires IsRun(params, systems, events) && c in systems[|events|].links
    ensures IsRun(params, longer, more) && |longer| == |more| + 1 && OnlyClientReads(c, events, more)
    ensures c in longer[|more|].links
    ensures var l, k := systems[|events|].links[c], longer[|more|].links[c];
            NothingToRead(k.client) && k.serverWrote == l.serverWrote && k.server == l.server
    decreases Unread(systems[|events|].links[c].client)
  {
    hide IsRun, C.ToRead, Inv, Unread, NothingToRead, OnlyClientReads;
    RunShape(params, systems, events);
    RunKeepsInv(params, systems, events, |events|);
    ReceivesOk(systems[|events|], c);
    RequestIsServed(systems[|events|].links[c].client);
    longer, more := OneMore(params, systems, events, AtClient(c, ReadRequest));
    NextRead(c, events, more);
    if longer[|more|].links[c].client.readPayloads.Some? {
      var mid := more;
      TakenIsLess(longer[|more|].links[c].client);
      longer, more := OneMore(params, longer, more, AtClient(c, Take));
      longer, more := ClientReadsOn(params, longer, more, c);
      TwoReads(c, events, mid, more);
    }
  }

  lemma TakenIsLess(c: C.ClientState)
    requires c.readPayloads.Some?
    ensures Unread(C.Taken(c)) < Unread(c)
  {
  }

  lemma NextRead(c: int, events: seq<Event>, more: seq<Event>)
    requires more == events + [AtClient(c, ReadRequest)]
    ensures OnlyClientReads(c, events, more)
  {
  }

  lemma TwoReads(c: int, events: seq<Event>, mid: seq<Event>, more: seq<Event>)
    requires mid == events + [AtClient(c, ReadRequest)] && OnlyClientReads(c, mid + [AtClient(c, Take)], more)
    ensures OnlyClientReads(c, events, more)
  {
    var start := mid + [AtClient(c, Take)];
    assert start[|events|] == AtClient(c, ReadRequest) && start[|events| + 1] == AtClient(c, Take);
  }

  /** So requests to read and receipts alone bring out everything that arrived in order; and once the server has nothing
      queued or unacknowledged for the client, that is all it wrote to it. */
  lemma ClientReadsReturnAll(params: M.Params, systems: seq<System>, events: seq<Event>, c: int)
    returns (longer: seq<System>, more: seq<Event>)
    requires IsRun(params, systems, events) && c in systems[|events|].links
    ensures IsRun(params, longer, more) && OnlyClientReads(c, events, more)
    ensures c in longer[|more|].links
    ensures var l, k := systems[|events|].links[c], longer[|more|].links[c];
            && NothingToRead(k.client) && k.serverWrote == l.serverWrote
            && (l.server.queue == [] && l.server.window == [] ==> k.clientRead == l.serverWrote)
  {
    hide IsRun, Inv, NothingToRead;
    longer, more := ClientReadsOn(params, systems, events, c);
    RunKeepsInv(params, longer, more, |more|);
    ReceivesOk(longer[|more|], c);
    var k := longer[|more|].links[c];
    if k.server.queue == [] && k.server.window == [] {
      AllIsRead(k);
    }
  }

  lemma AllIsRead(l: L.Link)
    requires L.Inv(l) && l.server.queue == [] && l.server.window == [] && NothingToRead(l.client)
    ensures l.clientRead == l.serverWrote
  {
    hide M.SortBySeqNum, L.ClientHeld;
    var sorted := M.SortBySeqNum(l.client.receivedRecord);
    L.ServerQuietMeansHeld(l);
    L.RecordCoversRest(l.client, L.Down(l), L.HandedOver(l));
    M.SortKeeps(l.client.receivedRecord);
    if sorted != [] {
      L.WithoutFirst(sorted, l.client.receiveSeqNum, l.isn + 1 + |l.serverWrote|);
    }
    assert l.clientRead + [] == l.clientRead && l.clientRead + M.Payloads([]) == l.clientRead;
  }
}
