/**
 What the client's Close promises, everything sent and acknowledged, and what it keeps of that in runs of the whole
 system: the loop ends without a look at the window.
 */
module ClientClosing {
  import opened Messages
  import opened LspSystem
  import opened LostTimers
  import C = ClientSide
  import L = Links
  import S = ServerSide

  // The test that ends the loop of a client on which Close has been called
  predicate Released(c: C.ClientState) {
    c.unsentMessages == [] && c.receivedRecord == [] && c.readPayloads.None?
  }

  /** A released client has read everything it ever acknowledged; everything it wrote has reached the server if its
      window is empty. */
  lemma ReleasedWhenDelivered(params: Params, systems: seq<System>, events: seq<Event>, i: nat, c: int)
    requires IsRun(params, systems, events) && i < |systems| && c in systems[i].links
    requires Released(systems[i].links[c].client)
    ensures var w, l := systems[i], systems[i].links[c];
            && (l.client.window == [] ==>
                  Payloads(Only(w.taken, c)) + Payloads(Only(Waiting(w.srv), c)) == l.clientWrote)
            && l.clientRead <= l.serverWrote
            && forall n | n in l.toServerAcks && n > l.isn :: n <= l.isn + |l.clientRead|
  {
    hide IsRun, Inv, L.Inv, Only, Waiting;
    var w, l := systems[i], systems[i].links[c];
    NothingIsLost(params, systems, events, i, c);
    RunKeepsInv(params, systems, events, i);
    LinkHolds(w, c);
    L.EmptyRecordLosesNothing(l);
  }

  lemma LinkHolds(w: System, c: int)
    requires Inv(w) && c in w.links
    ensures L.Inv(w.links[c])
  {
    assert LinkOk(w.srv, c, w.links[c]);
  }

  /** With a message in the window the promise can fail: a client writes, Close would be released at once, and the
      server has not received anything. */
  lemma ReleasedTooSoon(params: Params, p: Params, addr: S.Addr) returns (systems: seq<System>, events: seq<Event>)
    requires 1 <= p.windowSize && 1 <= p.maxUnackedMessages
    ensures IsRun(params, systems, events) && 1 in systems[|events|].links
    ensures var w, l := systems[|events|], systems[|events|].links[1];
            Released(l.client) && l.clientWrote == [[]] && w.pushed == [] && l.server.outOfOrder == []
  {
    hide IsRun, Enabled;
    systems, events := [Start(params)], [];
    RunStarts(params);
    ClientStarts(params, p, addr);
    systems, events := OneMore(params, systems, events, Establish(addr, 0, p));
    var w := systems[|events|];
    ClientWrites(w, p, [], 1, {}, {});
    ReleasedStays(w);
    systems, events := OneMore(params, systems, events, AtClient(1, Write([])));
  }

  lemma ReleasedStays(w: System)
    requires 1 in w.links && Enabled(w, AtClient(1, Write([]))) && C.GateOpen(w.links[1].client)
    requires Released(w.links[1].client) && C.SenderOk(w.links[1].client)
    requires w.links[1].clientWrote == [] && w.pushed == [] && w.links[1].server.outOfOrder == []
    ensures var v := LspSystem.After(w, AtClient(1, Write([])));
            && 1 in v.links && Released(v.links[1].client)
            && v.links[1].clientWrote == [[]] && v.pushed == [] && v.links[1].server.outOfOrder == []
  {
    hide C.GateOpen, C.SenderOk, C.WriteArm;
    C.WrittenAtOnce(w.links[1].client, []);
  }
}
