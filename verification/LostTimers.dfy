/**
 Two runs of the whole system to a state in which a cumulative acknowledgement, made of acknowledgements that were
 sent, costs a message its timer: one at the client, one at the server.
 */
module LostTimers {
  import opened Messages
  import opened LspSystem
  import C = ClientSide
  import F = DataFilter
  import L = Links
  import Loop = ServerLoop
  import R = ServerSchedule
  import S = ServerSide
  import T = ClientSchedule

  lemma OneMore(params: Params, systems: seq<System>, events: seq<Event>, e: Event)
    returns (longer: seq<System>, more: seq<Event>)
    requires IsRun(params, systems, events) && Enabled(systems[|events|], e)
    ensures IsRun(params, longer, more) && |longer| == |more| + 1
    ensures longer[|more|] == LspSystem.After(systems[|events|], e)
  {
    hide LspSystem.After, Enabled;
    longer, more := systems + [LspSystem.After(systems[|events|], e)], events + [e];
  }

  // The n-th message, with an empty payload
  function Nth(n: int): Message {
    Message(1, n, [])
  }

  lemma IntactArrives(n: int)
    ensures Arriving(Nth(n), F.Intact, false) == Some(Nth(n))
  {
    hide F.Accept, F.Tampered;
    F.TamperingIsLoss(Nth(n), F.Intact, false);
  }

  // ---------- At the client ----------

  // Connection 1 is live; this is its client's window, nothing waits, and these packets were sent.
  ghost predicate ClientStage(w: System, p: Params, window: seq<Message>, next: int, sent: set<Message>,
                              acks: set<int>) {
    && 1 in w.srv.conns && 1 in w.links
    && var l := w.links[1];
    && l.isn == 0 && sent <= l.toServerData && acks <= l.toClientAcks
    && l.client.params == p && l.client.connId == 1 && l.client.sendingSeqNum == next
    && l.client.window == window && l.client.unsentMessages == [] && C.SenderOk(l.client)
  }

  lemma ClientStarts(params: Params, p: Params, addr: S.Addr)
    ensures Enabled(Start(params), Establish(addr, 0, p))
    ensures ClientStage(LspSystem.After(Start(params), Establish(addr, 0, p)), p, [], 1, {}, {})
  {
  }

  lemma ClientWrites(w: System, p: Params, window: seq<Message>, next: int, sent: set<Message>, acks: set<int>)
    requires ClientStage(w, p, window, next, sent, acks) && C.GateOpen(w.links[1].client)
    ensures var e := AtClient(1, Write([]));
            && Enabled(w, e)
            && ClientStage(LspSystem.After(w, e), p, window + [Nth(next)], next + 1, sent + {Nth(next)}, acks)
  {
    hide C.GateOpen, C.SenderOk, C.WriteArm;
    var c := w.links[1].client;
    C.WrittenAtOnce(c, []);
    C.WriteKeepsSender(c, []);
    assert C.Transmitted(C.Queued(c, []), C.WriteArm(c, [])) == [Nth(next)];
    assert Elements([Nth(next)]) == {Nth(next)};
  }

  lemma ServerHears(w: System, p: Params, window: seq<Message>, next: int, sent: set<Message>, acks: set<int>,
                    n: int)
    requires ClientStage(w, p, window, next, sent, acks) && Nth(n) in sent
    ensures var e := AtServer(1, HandleData(Nth(n), F.Intact, false));
            Enabled(w, e) && ClientStage(LspSystem.After(w, e), p, window, next, sent, acks + {n})
  {
    hide Arriving, C.SenderOk, S.DataArm, S.Pushed;
    IntactArrives(n);
  }

  lemma ClientHearsSecond(w: System, p: Params, sent: set<Message>, acks: set<int>)
    requires ClientStage(w, p, [Nth(1)] + [Nth(2)], 3, sent, acks) && 2 in acks
    ensures var e := AtClient(1, GetAck(2));
            Enabled(w, e) && ClientStage(LspSystem.After(w, e), p, [Nth(1)], 3, sent, acks)
  {
    hide C.SenderOk, C.AckArm;
    T.StretchedAck(w.links[1].client, p, 2);
    C.AckKeepsSender(w.links[1].client, 2);
  }

  lemma GateOpens(c: C.ClientState, n: nat)
    requires 2 <= c.params.windowSize && 2 <= c.params.maxUnackedMessages
    requires c.window == [] || c.window == [Nth(1)]
    ensures C.GateOpen(c)
  {
  }

  /** Messages 1 and 2 are written, arrive, and are acknowledged; the client hears of 2 only, writes 3, and then gets
      the cumulative acknowledgement of 1 and 2. Message 1 stays in its window and has lost its timer. */
  lemma ClientLosesTimer(params: Params, p: Params, addr: S.Addr)
    returns (systems: seq<System>, events: seq<Event>)
    requires 2 <= p.windowSize && 2 <= p.maxUnackedMessages
    ensures IsRun(params, systems, events)
    ensures var w, e := systems[|events|], AtClient(1, GetCAck(2));
            && Enabled(w, e) && 1 in w.links && 1 in LspSystem.After(w, e).links
            && C.SenderOk(w.links[1].client) && !C.SenderOk(LspSystem.After(w, e).links[1].client)
  {
    hide IsRun, Enabled, LspSystem.After, ClientStage, C.GateOpen;
    systems, events := [Start(params)], [];
    RunStarts(params);
    ClientStarts(params, p, addr);
    systems, events := OneMore(params, systems, events, Establish(addr, 0, p));
    StageGate(systems[|events|], p, [], 1, {}, {});
    ClientWrites(systems[|events|], p, [], 1, {}, {});
    systems, events := OneMore(params, systems, events, AtClient(1, Write([])));
    var one, two, three := {Nth(1)}, {Nth(1)} + {Nth(2)}, {Nth(1)} + {Nth(2)} + {Nth(3)};
    assert [] + [Nth(1)] == [Nth(1)] && {} + {Nth(1)} == one;
    StageGate(systems[|events|], p, [Nth(1)], 2, one, {});
    ClientWrites(systems[|events|], p, [Nth(1)], 2, one, {});
    systems, events := OneMore(params, systems, events, AtClient(1, Write([])));
    var both := [Nth(1)] + [Nth(2)];
    ServerHears(systems[|events|], p, both, 3, two, {}, 1);
    systems, events := OneMore(params, systems, events, AtServer(1, HandleData(Nth(1), F.Intact, false)));
    ServerHears(systems[|events|], p, both, 3, two, {} + {1}, 2);
    systems, events := OneMore(params, systems, events, AtServer(1, HandleData(Nth(2), F.Intact, false)));
    var acks := {} + {1} + {2};
    ClientHearsSecond(systems[|events|], p, two, acks);
    systems, events := OneMore(params, systems, events, AtClient(1, GetAck(2)));
    StageGate(systems[|events|], p, [Nth(1)], 3, two, acks);
    ClientWrites(systems[|events|], p, [Nth(1)], 3, two, acks);
    systems, events := OneMore(params, systems, events, AtClient(1, Write([])));
    CAckOfTwo(systems[|events|], p, three, acks);
  }

  lemma RunStarts(params: Params)
    ensures IsRun(params, [Start(params)], [])
  {
  }

  lemma StageGate(w: System, p: Params, window: seq<Message>, next: int, sent: set<Message>, acks: set<int>)
    requires ClientStage(w, p, window, next, sent, acks)
    requires 2 <= p.windowSize && 2 <= p.maxUnackedMessages && (window == [] || window == [Nth(1)])
    ensures 1 in w.links && C.GateOpen(w.links[1].client)
  {
    GateOpens(w.links[1].client, 0);
  }

  lemma CAckOfTwo(w: System, p: Params, sent: set<Message>, acks: set<int>)
    requires ClientStage(w, p, [Nth(1)] + [Nth(3)], 4, sent, acks) && {1, 2} <= acks
    ensures var e := AtClient(1, GetCAck(2));
            && Enabled(w, e) && 1 in w.links && 1 in LspSystem.After(w, e).links
            && C.SenderOk(w.links[1].client) && !C.SenderOk(LspSystem.After(w, e).links[1].client)
  {
    hide C.SenderOk, C.CAckArm, C.CAckCovers;
    T.NotCovered(w.links[1].client);
    C.CAckKeepsSenderIff(w.links[1].client, 2);
  }

  // ---------- At the server ----------

  // Connection 1 is live, nothing is closing, this is the server's record of it, and these messages were sent.
  ghost predicate ServerStage(w: System, params: Params, r: S.ServerConn, sent: set<Message>) {
    && w.srv.params == params && w.srv.closeId == -1
    && 1 in w.srv.conns && w.srv.conns[1] == r
    && 1 in w.links && w.links[1].isn == 0 && w.links[1].connId == 1 && w.links[1].params == params
    && w.links[1].server == r && sent <= w.links[1].toClientData
  }

  lemma ServerStarts(params: Params, p: Params, addr: S.Addr)
    ensures Enabled(Start(params), Establish(addr, 0, p))
    ensures ServerStage(LspSystem.After(Start(params), Establish(addr, 0, p)), params, S.Opened(addr, 0), {})
  {
  }

  lemma ServerWrites(w: System, params: Params, r: S.ServerConn, sent: set<Message>)
    requires ServerStage(w, params, r, sent)
    ensures var e := AtServer(1, HandleWrite([]));
            && Enabled(w, e)
            && ServerStage(LspSystem.After(w, e), params, S.SendArm(params, 1, r, []),
                           sent + Elements(S.SendSends(params, 1, r, [])))
  {
    hide S.SendArm, S.SendSends;
  }

  lemma ClientHears(w: System, params: Params, r: S.ServerConn, sent: set<Message>)
    requires ServerStage(w, params, r, sent) && Nth(1) in sent
    ensures var e := AtClient(1, GetData(Nth(1), F.Intact, false));
            && Enabled(w, e) && ServerStage(LspSystem.After(w, e), params, r, sent)
            && 1 in LspSystem.After(w, e).links[1].toServerAcks
  {
    hide Arriving, C.DataArm;
    IntactArrives(1);
  }

  lemma CAckOfOne(w: System, params: Params, r: S.ServerConn, sent: set<Message>)
    requires ServerStage(w, params, r, sent) && 1 in w.links[1].toServerAcks
    requires S.SenderOk(r) && S.GateOk(params, r) && !S.CAckInStep(r, 1)
    requires !Loop.Idle(S.CAckArm(params, r, 1))
    ensures var e := AtServer(1, HandleCAck(1));
            && Enabled(w, e) && 1 in LspSystem.After(w, e).srv.conns && !S.SenderOk(LspSystem.After(w, e).srv.conns[1])
  {
    hide S.SenderOk, S.CAckArm, S.CAckSends, Loop.Idle;
    S.CAckKeepsSenderIff(params, r, 1);
  }

  /** The server writes messages 1 and 2, the client acknowledges 1, and a cumulative acknowledgement of it reaches the
      server. Message 2 stays in its window and has lost its timer. */
  lemma ServerLosesTimer(params: Params, p: Params, addr: S.Addr)
    returns (systems: seq<System>, events: seq<Event>)
    requires 2 <= params.windowSize && 2 <= params.maxUnackedMessages
    ensures IsRun(params, systems, events)
    ensures var w, e := systems[|events|], AtServer(1, HandleCAck(1));
            && Enabled(w, e) && 1 in w.srv.conns && 1 in LspSystem.After(w, e).srv.conns
            && S.SenderOk(w.srv.conns[1]) && !S.SenderOk(LspSystem.After(w, e).srv.conns[1])
  {
    hide IsRun, Enabled, LspSystem.After, S.SendArm, S.SenderOk, S.GateOk, S.SendSends, S.CAckArm;
    systems, events := [Start(params)], [];
    RunStarts(params);
    ServerStarts(params, p, addr);
    systems, events := OneMore(params, systems, events, Establish(addr, 0, p));
    var r1 := S.Opened(addr, 0);
    var r2 := S.SendArm(params, 1, r1, []);
    var r3 := S.SendArm(params, 1, r2, []);
    ServerWrites(systems[|events|], params, r1, {});
    systems, events := OneMore(params, systems, events, AtServer(1, HandleWrite([])));
    FirstIsSent(params, addr);
    var sent := {} + Elements(S.SendSends(params, 1, r1, []));
    ServerWrites(systems[|events|], params, r2, sent);
    systems, events := OneMore(params, systems, events, AtServer(1, HandleWrite([])));
    sent := sent + Elements(S.SendSends(params, 1, r2, []));
    ClientHears(systems[|events|], params, r3, sent);
    systems, events := OneMore(params, systems, events, AtClient(1, GetData(Nth(1), F.Intact, false)));
    R.TwoWrites(params, r1);
    SecondStays(params, r3);
    CAckOfOne(systems[|events|], params, r3, sent);
  }

  lemma FirstIsSent(params: Params, addr: S.Addr)
    ensures Nth(1) in Elements(S.SendSends(params, 1, S.Opened(addr, 0), []))
  {
  }

  lemma SecondStays(params: Params, r: S.ServerConn)
    requires r.window == [Nth(1)] + [Nth(2)] && r.queue == []
    ensures !S.CAckInStep(r, 1) && !Loop.Idle(S.CAckArm(params, r, 1))
  {
    FirstIndex(r.window, 1, 0);
    assert Messages.After(r.window, 1) == [Nth(2)];
    assert S.Promotable(params, [Nth(2)], []) == [];
  }
}
