/** Reliable provisional responses end to end: the server transaction and the user agent that answer an
    INVITE, the client transaction and the user agent that sent it, and a network between them that may
    lose, repeat and reorder (sections 3 and 4 of RFC 3262). */
module ReliableProvisionals {
  import opened Messages
  import opened UaSpec
  import opened UaProperties
  import opened UaHandlers
  import opened UaRuns
  import opened UaReports
  import Laws = UaLaws
  import Server = ServerSpec
  import ServerRuns = ServerProperties
  import Client = ClientSpec
  import ClientRuns = ClientProperties

  // ---------------------------------------------------------------- the side that answers

  /** A response that is sent reliably. */
  predicate ReliableEff(f: Eff) { f.Respond? && 100 < f.code < 200 }

  /** The agent may send a provisional response: none was sent yet, or the last was acknowledged. */
  predicate CanSend(s: State) { s.UasTrying? || (s.UasRingingRel? && s.rel.prackReceived) }

  predicate WaitsForPrack(s: State) { s.UasRingingRel? && !s.rel.prackReceived }

  predicate SendsOne(effs: seq<Eff>) { effs != [] && ReliableEff(effs[0]) }

  /** An agent that answers with reliable provisional responses sends one at a time. */
  predicate OneAtATime(s: State, released: bool, effs: seq<Eff>, s': State) {
    |effs| <= 1 && !s'.UasRinging? && (SendsOne(effs) ==> (CanSend(s) || released) && WaitsForPrack(s')) &&
    (CanSend(s') ==> CanSend(s) || released)
  }

  /** Events that announce a final outcome carry no provisional code. */
  predicate FinalCode(k: Kind) {
    match k
    case PreConnect(code, _) => !(100 < code < 200)
    case Connect(code, _) => !(100 < code < 200)
    case Redirect(code, _) => !(100 < code < 200)
    case Fail(code) => !(100 < code < 200)
    case _ => true
  }

  function NextOf(r: Res): State { if r.next.Some? then r.next.value else r.u.st }

  predicate Answering(u: Ua) { CallerSide(u.st) && !u.st.UasRinging? && u.call.prRel }

  lemma EventSends(u: Ua, e: CCEvent, now: int)
    requires Answering(u) && FinalCode(e.kind)
    ensures OneAtATime(u.st, false, HandleEvent(u, e, now).effs, NextOf(HandleEvent(u, e, now)))
    ensures HandleEvent(u, e, now).u.call.prRel
  {
    hide SetConnectTs, SetDisconnectTs, StartExpire;
  }

  lemma RequestSends(u: Ua, r: Req)
    requires Answering(u)
    ensures OneAtATime(u.st, false, HandleRequest(u, r).effs, NextOf(HandleRequest(u, r)))
    ensures HandleRequest(u, r).u.call.prRel
  {
    hide SetDisconnectTs;
  }

  /** What the agent holds back is what it was handed. */
  predicate HeldOk(s: State) { PendingOk(s) && (ConnectWaits(s) ==> FinalCode(s.rel.connect.value.kind)) }

  lemma EventHolds(u: Ua, e: CCEvent, now: int)
    requires Answering(u) && FinalCode(e.kind) && HeldOk(u.st)
    ensures HeldOk(NextOf(HandleEvent(u, e, now)))
  {
    hide SetConnectTs, SetDisconnectTs, StartExpire;
  }

  /** `Settle` sends nothing more while the INVITE is being answered. */
  lemma SettleSends(u: Ua, r: Res)
    requires CallerSide(u.st) && SameKind(u.st, r.u.st) && (r.next.Some? ==> !r.next.value.UacCancelling?)
    ensures Settle(r).effs == r.effs && Settle(r).u.st == NextOf(r) && Settle(r).u.call.prRel == r.u.call.prRel
  {
    if r.next.Some? { assert r.effs + [] == r.effs; }
  }

  predicate Sends(u: Ua, released: bool, d: Done) {
    OneAtATime(u.st, released, d.effs, d.u.st) && d.u.call.prRel && HeldOk(d.u.st)
  }

  lemma RecvEventSends(u: Ua, e: CCEvent, now: int)
    requires Good(u) && Answering(u) && FinalCode(e.kind) && HeldOk(u.st)
    ensures Sends(u, false, RecvEvent(u, e, now))
  {
    EventSends(u, e, now);
    EventHolds(u, e, now);
    EventOk(u, e, now);
    hide HandleEvent, Times, HeldOk, Settle;
    SettleSends(u, HandleEvent(u, e, now));
  }

  lemma RecvRequestSends(u: Ua, r: Req)
    requires Good(u) && Answering(u) && HeldOk(u.st)
    ensures Sends(u, false, RecvRequest(u, r))
  {
    var u1 := u.(call := u.call.(rCSeq := r.cseq));
    RequestSends(u1, r);
    RequestOk(u1, r);
    RequestOutcome(u1, r);
    RequestHolds(u1, r);
    hide HandleRequest, Times, HeldOk, Settle;
    SettleSends(u1, HandleRequest(u1, r));
  }

  lemma RequestHolds(u: Ua, r: Req)
    requires Answering(u) && HeldOk(u.st)
    ensures HeldOk(NextOf(HandleRequest(u, r)))
  {
    hide SetDisconnectTs;
  }

  lemma PrackSends(u: Ua, body: Option<Body>, now: int)
    requires Good(u) && Answering(u) && HeldOk(u.st)
    ensures Sends(u, true, RecvPrack(u, body, now))
  {
    if u.st.UasRingingRel? {
      ReleaseSends(u);
      var d := Release(u);
      if u.st.rel.update.Some? { UpdateWaits(d.u, u.st.rel.update.value, now); }
      hide Release, RecvEvent;
      assert d.effs + [] == d.effs;
    }
  }

  lemma UpdateWaits(u: Ua, e: CCEvent, now: int)
    requires e.kind.Update? && (u.st.UasRingingRel? || u.st.UasPreConnect?)
    ensures var d := RecvEvent(u, e, now); d.effs == [] && SameKind(u.st, d.u.st) && d.u.call == u.call
    ensures var d := RecvEvent(u, e, now); CanSend(d.u.st) == CanSend(u.st) && (HeldOk(u.st) ==> HeldOk(d.u.st))
  {
  }

  lemma ReleaseSends(u: Ua)
    requires Good(u) && u.st.UasRingingRel? && u.call.prRel && HeldOk(u.st)
    ensures Sends(u, true, Release(u)) && (Release(u).u.st.UasRingingRel? || Release(u).u.st.UasPreConnect?)
  {
    var rel := u.st.rel;
    var u0 := SetRel(u, rel.(prackReceived := true));
    if rel.connect.Some? {
      EventSends(u0, rel.connect.value, 0);
      EventHolds(u0, rel.connect.value, 0);
      ReleasedState(u0, rel.connect.value);
    } else if rel.ring.Some? {
      EventSends(u0, rel.ring.value, 0);
      EventHolds(u0, rel.ring.value, 0);
      ReleasedState(u0, rel.ring.value);
    }
    hide RingingRelEvent, Settle, Good;
  }

  lemma ReleasedState(u: Ua, e: CCEvent)
    requires Good(u) && u.st.UasRingingRel? && (e.kind.Ring? || e.kind.Connect?)
    ensures var r := RingingRelEvent(u, e);
            r == HandleEvent(u, e, 0) && (NextOf(r).UasRingingRel? || NextOf(r).UasPreConnect?) &&
            Settle(r).effs == r.effs && Settle(r).u.st == NextOf(r) && Settle(r).u.call.prRel == r.u.call.prRel
  {
    RingingRelOk(u, e);
    SettleSends(u, RingingRelEvent(u, e));
    hide Settle;
  }

  predicate FromElsewhere(i: Input) { !i.GetPrack? && (i.GetEvent? ==> FinalCode(i.e.kind)) }

  lemma AgentSends(u: Ua, i: Input, now: int)
    requires Good(u) && Answering(u) && HeldOk(u.st) && Guard(u, i) && FromElsewhere(i)
    ensures Sends(u, false, Step(u, i, now))
  {
    hide RecvEvent, RecvRequest;
    match i
    case GetRequest(r) => RecvRequestSends(u, r);
    case GetEvent(e) => RecvEventSends(u, e, now);
    case GetTimeout(which) =>
      var u1 := match which case NoReply => CancelNoReply(u) case NoProgress => CancelNoProgress(u) case Expire => CancelExpire(u);
      HangupSends(u1, now);
      hide Hangup;
    case GetHangup => HangupSends(u, now);
    case _ =>
  }

  lemma HangupSends(u: Ua, now: int)
    requires Good(u) && Answering(u) && HeldOk(u.st)
    ensures Sends(u, false, Hangup(u, now))
  {
    var u1 := Enqueue(u, Disconnect(false), now);
    EnqueueKeeps(u, Disconnect(false), now, 1);
    RecvEventSends(u1.(q := u1.q.(nextSeq := u1.q.nextSeq + 1)), Event(u1, Disconnect(false), now), now);
    hide RecvEvent, QueueOk;
  }

  // ---------------------------------------------------------------- the side that asks

  predicate Asking(s: State) { s.UacTrying? || s.UacRinging? }

  /** The agent acknowledges a reliable provisional response exactly when its number is the next. */
  predicate Acknowledges(u: Ua, r: Resp, last: int) { Asking(u.st) && r.m.rseq.Some? && RSeqOk(r, last) }

  lemma ResponsePracks(u: Ua, r: Resp, last: int, now: int)
    requires r.m.rseq.Some? ==> Provisional(r.m)
    ensures var x := HandleResponse(u, r, last, now);
            x.lastRseq == (if Acknowledges(u, r, last) then r.m.rseq.value else last) &&
            (Acknowledges(u, r, last) ==> x.r.effs == [SendPrack(r.m.rseq.value)]) &&
            (!Acknowledges(u, r, last) ==> forall k :: SendPrack(k) !in x.r.effs)
  {
    hide SetConnectTs, EndSetup, SetDisconnectTs, Escalate, EscalateAgain, StartExpire;
  }

  // ---------------------------------------------------------------- the server transaction

  function Number(s: Server.Srv): int { s.rel.rseq - 1 }

  /** The numbers of the responses the transaction may repeat. */
  predicate NumberOk(r: Response, n: int) { r.rseq.Some? ==> 1 <= r.rseq.value <= n && Provisional(r) }

  predicate DataOk(s: Server.Srv) { s.data.Some? ==> NumberOk(s.data.value, Number(s)) }

  function Transmitted(outs: seq<Server.Out>): set<Response> {
    set i | 0 <= i < |outs| && outs[i].Transmit? :: outs[i].resp
  }

  predicate StartsReliable(t: Server.Tables, s: Server.Srv, e: ServerRuns.Event) {
    s.live && ServerRuns.Enabled(t, s, e) && e.input.Send? && Server.SentReliably(s, e.input.resp)
  }

  predicate SameNumbers(s: Server.Srv, s': Server.Srv) {
    s'.rel.on == s.rel.on && s'.hdr == s.hdr && s'.rel.rseq == s.rel.rseq &&
    (s'.rel.inflight.Some? ==> s.rel.inflight.Some? && s'.rel.inflight.value.rtid == s.rel.inflight.value.rtid)
  }

  predicate Plain(e: ServerRuns.Event) {
    !e.input.Setup100rel? && (e.input.Send? ==> e.input.resp.rseq.None?)
  }

  /** What a step that numbers nothing puts out. */
  predicate OldNumbers(s: Server.Srv, st: Server.Step) {
    SameNumbers(s, st.s) && DataOk(st.s) && forall r <- Transmitted(st.outs) :: NumberOk(r, Number(s))
  }

  lemma SendOther(t: Server.Tables, me: Server.Id, s: Server.Srv, r: Response, ack: bool, tag: Token, now: int)
    requires DataOk(s) && !Server.SentReliably(s, r) && r.rseq.None?
    ensures OldNumbers(s, Server.SendResponse(t, me, s, r, ack, tag, now))
  {
  }

  lemma CancelOther(t: Server.Tables, me: Server.Id, s: Server.Srv, tag: Token, now: int)
    requires DataOk(s)
    ensures OldNumbers(s, Server.DoCancel(t, me, s, tag, now))
  {
    if s.Invite() { SendOther(t, me, s, Server.R487(s), false, tag, now); }
    hide Server.SendResponse;
  }

  lemma RecvOther(t: Server.Tables, me: Server.Id, s: Server.Srv, req: Request, tag: Token, now: int)
    requires DataOk(s)
    ensures OldNumbers(s, Server.IncomingRequest(t, me, s, req, tag, now))
  {
    CancelOther(t, me, s, tag, now);
    hide Server.DoCancel;
  }

  lemma ServerOther(t: Server.Tables, me: Server.Id, s: Server.Srv, e: ServerRuns.Event)
    requires ServerRuns.Inv(s) && DataOk(s) && Plain(e) && !StartsReliable(t, s, e)
    ensures OldNumbers(s, ServerRuns.Apply(t, me, s, e))
  {
    hide Server.SendResponse, Server.IncomingRequest, OldNumbers;
    if e.input.Send? && s.live && ServerRuns.Enabled(t, s, e) {
      SendOther(t, me, s, e.input.resp, e.input.wantAck, e.input.genTag, e.at);
    } else if e.input.Send? {
      IgnoredSend(t, me, s, e);
    } else if e.input.Recv? && ServerRuns.Enabled(t, s, e) {
      RecvOther(t, me, s, e.input.req, e.input.genTag, e.at);
    } else {
      OtherInputs(t, me, s, e);
    }
  }

  /** A transaction that is gone sends nothing. */
  lemma IgnoredSend(t: Server.Tables, me: Server.Id, s: Server.Srv, e: ServerRuns.Event)
    requires ServerRuns.Inv(s) && DataOk(s) && e.input.Send? && (!s.live || !ServerRuns.Enabled(t, s, e))
    ensures OldNumbers(s, ServerRuns.Apply(t, me, s, e))
  {
  }

  lemma OtherInputs(t: Server.Tables, me: Server.Id, s: Server.Srv, e: ServerRuns.Event)
    requires ServerRuns.Inv(s) && DataOk(s) && Plain(e)
    requires (e.input.Send? || e.input.Recv?) ==> !ServerRuns.Enabled(t, s, e)
    ensures OldNumbers(s, ServerRuns.Apply(t, me, s, e))
  {
    if e.input.FireE? { CancelOther(t, me, s.(timers := s.timers.(e := None)), ServerRuns.TIMER_TAG, e.at); }
    hide Server.DoCancel, Server.SendResponse;
  }

  lemma ServerNumbers(t: Server.Tables, me: Server.Id, s: Server.Srv, e: ServerRuns.Event)
    requires ServerRuns.Inv(s) && DataOk(s) && Plain(e) && StartsReliable(t, s, e) && s.rel.inflight.None?
    ensures var st := ServerRuns.Apply(t, me, s, e);
            st.s.rel.on == s.rel.on && st.s.hdr == s.hdr && st.s.rel.rseq == s.rel.rseq + 1 && DataOk(st.s) &&
            st.s.rel.inflight.Some? && st.s.rel.inflight.value.rtid.rseq == s.rel.rseq &&
            forall r <- Transmitted(st.outs) :: NumberOk(r, Number(st.s))
  {
  }

  /** A PRACK is taken for the number in flight, and for no other. */
  lemma ServerPracks(t: Server.Tables, me: Server.Id, s: Server.Srv, e: ServerRuns.Event)
    requires ServerRuns.Inv(s) && e.input.Recv?
    ensures var st := ServerRuns.Apply(t, me, s, e);
            (Server.PrackCb in st.outs ==> e.input.req.hdr.sipMethod == PRACK && Server.PrackMatches(s, e.input.req) && st.s.rel.inflight.None?)
  {
  }

  // ---------------------------------------------------------------- both sides and the network

  /** `responses` and `pracks` are the messages that were ever sent: each may arrive any number of
      times, in any order, or never.  `acked` counts the PRACKs the server transaction took, `accepted`
      lists the numbers the caller's agent acknowledged. */
  datatype Net = Net(tab: Server.Tables, srv: Server.Srv, uas: Ua, cli: Client.Cli, uac: Ua,
                     responses: set<Response>, pracks: set<Request>, acked: nat, accepted: seq<int>)

  datatype Action =
    | AgentActs(i: Input, tag: Token)                          // the answering agent; its responses go out
    | ServerActs(e: ServerRuns.Event)                          // timers and requests other than PRACK
    | PrackArrives(prack: Request, tag: Token)
    | ResponseArrives(r: Resp, wantUack: bool, prackHdr: Hdr)
    | CallerActs(i: Input)                                     // the calling agent; a timeout's 408
    | ClientActs(c: ClientRuns.Event)                          // timers, CANCEL, ACK

  const ME: Server.Id := 0

  predicate OneInvite(n: Net) {
    n.cli.hdr.callId == n.srv.hdr.callId && n.cli.hdr.cseq == n.srv.hdr.cseq && n.cli.hdr.fromTag == n.srv.hdr.fromTag &&
    n.cli.hdr.sipMethod == INVITE && n.srv.hdr.sipMethod == INVITE
  }

  predicate Enabled(n: Net, act: Action) {
    match act
    case AgentActs(i, tag) => Guard(n.uas, i) && FromElsewhere(i)
    case ServerActs(e) => Plain(e) && !e.input.Send? && (e.input.Recv? ==> e.input.req.hdr.sipMethod != PRACK)
    case PrackArrives(prack, _) => prack in n.pracks
    case ResponseArrives(r, _, h) =>
      r.m in n.responses && h.sipMethod == PRACK && h.callId == n.cli.hdr.callId && h.fromTag == n.cli.hdr.fromTag
    case CallerActs(i) => Guard(n.uac, i) && (i.GetResponse? ==> i.resp.m.rseq.None?)
    case ClientActs(c) => !c.input.Recv? && !c.input.AskCheckRSeq?
  }

  /** A response of the agent that answers the INVITE goes to the INVITE's transaction. */
  function Answer(n: Net, d: Done, tag: Token, now: int): Net {
    if !CallerSide(n.uas.st) || d.effs == [] || !d.effs[0].Respond? then n.(uas := d.u)
    else
      var f := d.effs[0];
      var e := ServerRuns.Event(ServerRuns.Send(Response(f.code, EMPTY, None, f.body), f.ackWait, tag), now);
      ServerStep(n.(uas := d.u), e)
  }

  function ServerStep(n: Net, e: ServerRuns.Event): Net {
    if !ServerRuns.Inv(n.srv) then n
    else
      var st := ServerRuns.Apply(n.tab, ME, n.srv, e);
      n.(tab := st.t, srv := st.s, responses := n.responses + Transmitted(st.outs))
  }

  function PrackFor(c: Client.Cli, h: Hdr, rseq: int): Request {
    Request(h, Some(RAck(rseq, c.hdr.cseq, c.hdr.sipMethod)), None)
  }

  predicate TakesPrack(n: Net, e: ServerRuns.Event) {
    ServerRuns.Inv(n.srv) && Server.PrackCb in ServerRuns.Apply(n.tab, ME, n.srv, e).outs
  }

  predicate Delivers(n: Net, m: Response, wantUack: bool, now: int) {
    Client.Deliver(m) in ClientRuns.Apply(n.cli, ClientRuns.Event(ClientRuns.Recv(m, wantUack), now)).outs
  }

  /** The transaction's callback is the agent's `RecvPRACK`. */
  function PrackArrived(n: Net, e: ServerRuns.Event): Net
    requires e.input.Recv?
  {
    if !TakesPrack(n, e) then ServerStep(n, e)
    else
      Answer(ServerStep(n, e).(acked := n.acked + 1), RecvPrack(n.uas, e.input.req.body, e.at), e.input.genTag, e.at)
  }

  function Act(n: Net, act: Action, now: int): Net
    requires Enabled(n, act)
  {
    match act
    case AgentActs(i, tag) => Answer(n, Step(n.uas, i, now), tag, now)
    case ServerActs(e) => ServerStep(n, e)
    case PrackArrives(prack, tag) => PrackArrived(n, ServerRuns.Event(ServerRuns.Recv(prack, tag), now))
    case ResponseArrives(r, wantUack, h) =>
      var c := ClientRuns.Apply(n.cli, ClientRuns.Event(ClientRuns.Recv(r.m, wantUack), now)).s;
      if !Delivers(n, r.m, wantUack, now) then n.(cli := c)
      else
        var last := n.cli.lastRseq;
        var n1 := n.(cli := c.(lastRseq := HandleResponse(n.uac, r, last, now).lastRseq),
                     uac := RecvResponse(n.uac, r, last, now).u);
        if Acknowledges(n.uac, r, last)
        then n1.(pracks := n.pracks + {PrackFor(n.cli, h, r.m.rseq.value)}, accepted := n.accepted + [r.m.rseq.value])
        else n1
    case CallerActs(i) => n.(uac := Step(n.uac, i, now).u)
    case ClientActs(c) => n.(cli := ClientRuns.Apply(n.cli, c).s)
  }

  // ---------------------------------------------------------------- the invariant

  predicate AgentsOk(n: Net) {
    Good(n.uas) && Good(n.uac) && !n.uas.st.NoState? && (CallerSide(n.uas.st) ==> Answering(n.uas) && HeldOk(n.uas.st))
  }

  predicate ServerOk(n: Net) { ServerRuns.Inv(n.srv) && DataOk(n.srv) && n.srv.rel.on }

  /** At most one number is unacknowledged, and the agent sends another only when none is. */
  predicate OneUnacknowledged(n: Net) {
    n.acked <= Number(n.srv) <= n.acked + 1 && (CanSend(n.uas.st) ==> Number(n.srv) == n.acked) &&
    (n.srv.rel.inflight.Some? ==>
       n.srv.rel.inflight.value.rtid.rseq == Number(n.srv) && Number(n.srv) == n.acked + 1)
  }

  /** What is on the network was sent in step. */
  predicate NetworkOk(n: Net) {
    n.acked <= n.cli.lastRseq <= Number(n.srv) &&
    (forall r <- n.responses :: NumberOk(r, Number(n.srv))) &&
    (forall p <- n.pracks :: p.rack.Some? && p.rack.value.rseq <= n.cli.lastRseq)
  }

  predicate SeenUpTo(c: Client.Cli, last: int) {
    forall k :: 1 <= k <= last ==> Client.ReplyRtid(c, k) in c.seen
  }

  predicate SeenOk(n: Net) { SeenUpTo(n.cli, n.cli.lastRseq) }

  predicate InOrder(accepted: seq<int>) { forall i :: 0 <= i < |accepted| ==> accepted[i] == i + 1 }

  predicate AcceptedOk(n: Net) { |n.accepted| == n.cli.lastRseq && InOrder(n.accepted) }

  predicate Inv(n: Net) {
    OneInvite(n) && AgentsOk(n) && ServerOk(n) && OneUnacknowledged(n) && NetworkOk(n) && SeenOk(n) && AcceptedOk(n)
  }

  // ---------------------------------------------------------------- the answering side acts

  /** What a step of the server transaction that numbers nothing keeps. */
  lemma ServerStepOld(n: Net, e: ServerRuns.Event)
    requires Inv(n) && Plain(e) && !StartsReliable(n.tab, n.srv, e)
    ensures Inv(ServerStep(n, e)) && ServerStep(n, e).uas == n.uas && Number(ServerStep(n, e).srv) == Number(n.srv)
    ensures n.srv.rel.inflight.None? ==> ServerStep(n, e).srv.rel.inflight.None?
  {
    ServerOther(n.tab, ME, n.srv, e);
    ServerRuns.ApplyKeepsInv(n.tab, ME, n.srv, e);
    hide ServerRuns.Apply, ServerRuns.Inv, Good, HeldOk, DataOk, Plain;
  }

  /** The server transaction numbers one more response. */
  lemma ServerStepNew(n: Net, e: ServerRuns.Event)
    requires OneInvite(n) && ServerOk(n) && NetworkOk(n) && Number(n.srv) == n.acked && n.srv.rel.inflight.None?
    requires Plain(e) && StartsReliable(n.tab, n.srv, e)
    ensures var n' := ServerStep(n, e);
            OneInvite(n') && ServerOk(n') && NetworkOk(n') && Number(n'.srv) == n.acked + 1 && n' == n.(tab := n'.tab, srv := n'.srv, responses := n'.responses)
    ensures var f := ServerStep(n, e).srv.rel.inflight; f.Some? && f.value.rtid.rseq == n.acked + 1
  {
    ServerNumbers(n.tab, ME, n.srv, e);
    ServerRuns.ApplyKeepsInv(n.tab, ME, n.srv, e);
    hide ServerRuns.Apply, ServerRuns.Inv, DataOk, Plain, StartsReliable;
  }

  /** What the answering agent may become. */
  predicate Follows(u: Ua, released: bool, d: Done) {
    Good(d.u) && !d.u.st.NoState? && (CallerSide(u.st) ==> Sends(u, released, d)) && (CallerSide(d.u.st) ==> CallerSide(u.st))
  }

  lemma AnswerKeeps(n: Net, d: Done, released: bool, tag: Token, now: int)
    requires Inv(n) && Follows(n.uas, released, d)
    requires released ==> Number(n.srv) == n.acked && n.srv.rel.inflight.None?
    ensures Inv(Answer(n, d, tag, now))
  {
    if CallerSide(n.uas.st) && d.effs != [] && d.effs[0].Respond? {
      var f := d.effs[0];
      var e := ServerRuns.Event(ServerRuns.Send(Response(f.code, EMPTY, None, f.body), f.ackWait, tag), now);
      if StartsReliable(n.tab, n.srv, e) {
        ServerStepNew(n.(uas := d.u), e);
      } else {
        ServerStepOld(n, e);
        assert ServerStep(n.(uas := d.u), e) == ServerStep(n, e).(uas := d.u);
      }
    }
    hide ServerStep, Good, ServerRuns.Inv, DataOk, HeldOk, InOrder;
  }

  lemma AgentFollows(u: Ua, i: Input, now: int)
    requires Good(u) && !u.st.NoState? && (CallerSide(u.st) ==> Answering(u) && HeldOk(u.st))
    requires Guard(u, i) && FromElsewhere(i)
    ensures Follows(u, false, Step(u, i, now))
  {
    StepKeeps(u, i, now);
    if Revives(u, i) { CancelStep(u, now); }
    if CallerSide(u.st) { AgentSends(u, i, now); }
    hide Step, HeldOk, Sends, TimersOk, TimersFit, QueueOk;
  }

  lemma PrackFollows(u: Ua, body: Option<Body>, now: int)
    requires Good(u) && !u.st.NoState? && (CallerSide(u.st) ==> Answering(u) && HeldOk(u.st))
    ensures Follows(u, true, RecvPrack(u, body, now))
  {
    PrackStep(u, body, now);
    if CallerSide(u.st) { PrackSends(u, body, now); }
    hide RecvPrack, HeldOk, Sends, TimersOk, TimersFit, QueueOk, Escalates;
  }

  /** A PRACK that is taken is for the one number that is unacknowledged. */
  lemma TakenNumber(n: Net, prack: Request, e: ServerRuns.Event)
    requires Inv(n) && prack in n.pracks && e.input.Recv? && e.input.req == prack && TakesPrack(n, e)
    ensures prack.rack.value.rseq == Number(n.srv) <= n.cli.lastRseq
  {
    ServerPracks(n.tab, ME, n.srv, e);
    hide ServerRuns.Apply, Good, ServerRuns.Inv, DataOk, HeldOk, InOrder;
  }

  lemma AgentReleased(n: Net, body: Option<Body>, now: int)
    requires Inv(n)
    ensures Follows(n.uas, true, RecvPrack(n.uas, body, now))
  {
    PrackFollows(n.uas, body, now);
  }

  lemma PrackKeeps(n: Net, e: ServerRuns.Event)
    requires Inv(n) && e.input.Recv? && e.input.req in n.pracks
    ensures Inv(PrackArrived(n, e))
  {
    hide Answer, RecvPrack, ServerStep, Inv, TakesPrack, Follows, Number, ServerRuns.Apply;
    if TakesPrack(n, e) {
      TakenNumber(n, e.input.req, e);
      AckedKeeps(n, e);
      AgentReleased(n, e.input.req.body, e.at);
      AnswerKeeps(ServerStep(n, e).(acked := n.acked + 1), RecvPrack(n.uas, e.input.req.body, e.at), true, e.input.genTag, e.at);
    } else {
      ServerStepOld(n, e);
    }
  }

  lemma AckedKeeps(n: Net, e: ServerRuns.Event)
    requires Inv(n) && e.input.Recv? && TakesPrack(n, e) && Number(n.srv) <= n.cli.lastRseq
    ensures var n1 := ServerStep(n, e).(acked := n.acked + 1);
            Inv(n1) && Number(n1.srv) == n1.acked && n1.srv.rel.inflight.None? && n1.uas == n.uas
  {
    ServerStepOld(n, e);
    ServerPracks(n.tab, ME, n.srv, e);
    hide Good, ServerRuns.Inv, DataOk, HeldOk, InOrder;
  }

  // ---------------------------------------------------------------- the asking side acts

  /** The client transaction hands a reliable provisional response over only once, and remembers it. */
  lemma ClientDelivers(c: Client.Cli, m: Response, wantUack: bool, now: int)
    ensures var st := ClientRuns.Apply(c, ClientRuns.Event(ClientRuns.Recv(m, wantUack), now));
            st.s.hdr == c.hdr && st.s.lastRseq == c.lastRseq && c.seen <= st.s.seen &&
            (Client.Deliver(m) in st.outs && m.rseq.Some? && Provisional(m) ==>
               Client.ReplyRtid(c, m.rseq.value) !in c.seen && Client.ReplyRtid(c, m.rseq.value) in st.s.seen)
  {
  }

  lemma ClientOther(c: Client.Cli, e: ClientRuns.Event)
    requires !e.input.AskCheckRSeq?
    ensures var c' := ClientRuns.Apply(c, e).s; c'.hdr == c.hdr && c'.lastRseq == c.lastRseq && c.seen <= c'.seen
  {
  }

  lemma SeenGrows(c: Client.Cli, c': Client.Cli, last: int)
    requires SeenUpTo(c, last) && c'.hdr == c.hdr && c.seen <= c'.seen
    ensures SeenUpTo(c', last) && (Client.ReplyRtid(c, last + 1) in c'.seen ==> SeenUpTo(c', last + 1))
  {
    forall k | 1 <= k <= last ensures Client.ReplyRtid(c', k) in c'.seen {
      assert Client.ReplyRtid(c, k) in c.seen;
    }
  }

  /** A reliable provisional response that reaches the agent carries the next number: none is skipped
      and none is refused. */
  lemma NextInOrder(n: Net, m: Response, wantUack: bool, now: int)
    requires Inv(n) && m in n.responses && m.rseq.Some? && Delivers(n, m, wantUack, now)
    ensures m.rseq.value == n.cli.lastRseq + 1 == |n.accepted| + 1
  {
    ClientDelivers(n.cli, m, wantUack, now);
    hide ClientRuns.Apply, Good, ServerRuns.Inv, DataOk, HeldOk;
  }

  /** A response the agent does not acknowledge, or never sees. */
  lemma UnacknowledgedKeeps(n: Net, c: Client.Cli, uac: Ua)
    requires Inv(n) && Good(uac) && c.hdr == n.cli.hdr && c.lastRseq == n.cli.lastRseq && n.cli.seen <= c.seen
    ensures Inv(n.(cli := c, uac := uac))
  {
    SeenGrows(n.cli, c, n.cli.lastRseq);
    hide Good, ServerRuns.Inv, DataOk, HeldOk, InOrder, SeenUpTo;
  }

  lemma AcknowledgedKeeps(n: Net, c: Client.Cli, uac: Ua, h: Hdr)
    requires Inv(n) && Good(uac) && c.hdr == n.cli.hdr && c.lastRseq == n.cli.lastRseq + 1 && n.cli.seen <= c.seen
    requires Client.ReplyRtid(n.cli, c.lastRseq) in c.seen && c.lastRseq <= Number(n.srv)
    ensures Inv(n.(cli := c, uac := uac, pracks := n.pracks + {PrackFor(n.cli, h, c.lastRseq)},
                   accepted := n.accepted + [c.lastRseq]))
  {
    SeenGrows(n.cli, c, n.cli.lastRseq);
    hide Good, ServerRuns.Inv, DataOk, HeldOk, SeenUpTo;
  }

  lemma ResponseKeeps(n: Net, r: Resp, wantUack: bool, h: Hdr, now: int)
    requires Inv(n) && Enabled(n, ResponseArrives(r, wantUack, h))
    ensures Inv(Act(n, ResponseArrives(r, wantUack, h), now))
  {
    hide ClientRuns.Apply, RecvResponse, HandleResponse, ServerRuns.Inv, DataOk, HeldOk, SeenOk, AcceptedOk, OneUnacknowledged, TimersOk,
      TimersFit, QueueOk;
    var c := ClientRuns.Apply(n.cli, ClientRuns.Event(ClientRuns.Recv(r.m, wantUack), now)).s;
    ClientDelivers(n.cli, r.m, wantUack, now);
    if Delivers(n, r.m, wantUack, now) {
      var last := n.cli.lastRseq;
      ResponsePracks(n.uac, r, last, now);
      ResponseStep(n.uac, r, last, now);
      if Acknowledges(n.uac, r, last) {
        NextInOrder(n, r.m, wantUack, now);
        AcknowledgedKeeps(n, c.(lastRseq := last + 1), RecvResponse(n.uac, r, last, now).u, h);
      } else {
        UnacknowledgedKeeps(n, c, RecvResponse(n.uac, r, last, now).u);
      }
    } else {
      UnacknowledgedKeeps(n, c, n.uac);
    }
  }

  lemma ActKeepsInv(n: Net, act: Action, now: int)
    requires Inv(n) && Enabled(n, act)
    ensures Inv(Act(n, act, now))
  {
    hide Answer, ServerStep, ClientRuns.Apply, Step, OneUnacknowledged, AcceptedOk;
    match act
    case AgentActs(i, tag) =>
      AgentFollows(n.uas, i, now);
      AnswerKeeps(n, Step(n.uas, i, now), false, tag, now);
    case ServerActs(e) => ServerStepOld(n, e);
    case PrackArrives(prack, tag) => PrackKeeps(n, ServerRuns.Event(ServerRuns.Recv(prack, tag), now));
    case ResponseArrives(r, wantUack, h) => ResponseKeeps(n, r, wantUack, h, now);
    case CallerActs(i) => CallerKeeps(n, i, now);
    case ClientActs(c) => ClientKeeps(n, c);
  }

  lemma CallerKeeps(n: Net, i: Input, now: int)
    requires Inv(n) && Guard(n.uac, i)
    ensures Inv(n.(uac := Step(n.uac, i, now).u))
  {
    StepKeeps(n.uac, i, now);
    hide Step, Good, ServerRuns.Inv, DataOk, HeldOk, InOrder;
  }

  lemma ClientKeeps(n: Net, c: ClientRuns.Event)
    requires Inv(n) && !c.input.AskCheckRSeq?
    ensures Inv(n.(cli := ClientRuns.Apply(n.cli, c).s))
  {
    ClientOther(n.cli, c);
    SeenGrows(n.cli, ClientRuns.Apply(n.cli, c).s, n.cli.lastRseq);
    hide ClientRuns.Apply, Good, ServerRuns.Inv, DataOk, HeldOk, InOrder;
  }

  // ---------------------------------------------------------------- whole runs

  datatype Timed = Timed(act: Action, now: int)

  predicate Possible(n: Net, acts: seq<Timed>)
    decreases |acts|
  {
    acts == [] || (Enabled(n, acts[0].act) && Possible(Act(n, acts[0].act, acts[0].now), acts[1..]))
  }

  function Run(n: Net, acts: seq<Timed>): Net
    requires Possible(n, acts)
    decreases |acts|
  {
    if acts == [] then n else Run(Act(n, acts[0].act, acts[0].now), acts[1..])
  }

  /** The INVITE has reached both transactions and nothing has been answered. */
  predicate Start(n: Net) {
    OneInvite(n) && AgentsOk(n) && n.uas.st == UasTrying && ServerRuns.Inv(n.srv) && n.srv.data.None? && n.srv.rel == Server.Reliable(true, 1, None) &&
    n.cli.lastRseq == 0 && n.responses == {} && n.pracks == {} && n.acked == 0 && n.accepted == []
  }

  lemma {:induction false} RunKeepsInv(n: Net, acts: seq<Timed>)
    requires Inv(n) && Possible(n, acts)
    ensures Inv(Run(n, acts))
    decreases |acts|
  {
    if acts != [] {
      ActKeepsInv(n, acts[0].act, acts[0].now);
      RunKeepsInv(Act(n, acts[0].act, acts[0].now), acts[1..]);
    }
    hide Inv, Act;
  }

  /** In every run, over every network: the server transaction has numbered at most one response more
      than it has seen acknowledged, and the caller's agent has acknowledged 1, 2, 3, ... in order,
      without a gap and each once, as far as the last number it reached. */
  lemma ReliableAndInOrder(n: Net, acts: seq<Timed>)
    requires Start(n) && Possible(n, acts)
    ensures var end := Run(n, acts);
            end.acked <= Number(end.srv) <= end.acked + 1 && |end.accepted| == end.cli.lastRseq <= Number(end.srv) &&
            forall i :: 0 <= i < |end.accepted| ==> end.accepted[i] == i + 1
  {
    assert Inv(n);
    RunKeepsInv(n, acts);
    hide Act, Possible, Run, Start;
  }

  // ---------------------------------------------------------------- every PRACK names its response

  /** The PRACKs on the network belong to the INVITE. */
  predicate PracksNamed(n: Net) {
    forall p <- n.pracks ::
      p.hdr.sipMethod == PRACK && p.hdr.callId == n.cli.hdr.callId && p.hdr.fromTag == n.cli.hdr.fromTag && p.rack.Some? &&
      p.rack.value.cseq == n.cli.hdr.cseq && p.rack.value.sipMethod == n.cli.hdr.sipMethod
  }

  lemma ActKeepsNames(n: Net, act: Action, now: int)
    requires PracksNamed(n) && Enabled(n, act)
    ensures PracksNamed(Act(n, act, now))
  {
    match act
    case ResponseArrives(r, wantUack, h) => ClientDelivers(n.cli, r.m, wantUack, now);
    case ClientActs(c) => ClientOther(n.cli, c);
    case _ =>
    hide ClientRuns.Apply, ServerRuns.Apply, HandleResponse, RecvResponse, Step, RecvPrack, ServerRuns.Inv;
  }

  lemma {:induction false} RunKeepsNames(n: Net, acts: seq<Timed>)
    requires PracksNamed(n) && Possible(n, acts)
    ensures PracksNamed(Run(n, acts))
    decreases |acts|
  {
    if acts != [] {
      ActKeepsNames(n, acts[0].act, acts[0].now);
      RunKeepsNames(Act(n, acts[0].act, acts[0].now), acts[1..]);
    }
    hide Act, PracksNamed;
  }

  /** In every run: a PRACK with the number that is in flight is the PRACK the server transaction waits for. */
  lemma EveryPrackMatches(n: Net, acts: seq<Timed>, p: Request)
    requires Start(n) && Possible(n, acts) && p in Run(n, acts).pracks && Run(n, acts).srv.rel.inflight.Some?
    ensures p.rack.Some? && (p.rack.value.rseq == Number(Run(n, acts).srv) <==> Server.PrackMatches(Run(n, acts).srv, p))
  {
    assert Inv(n);
    RunKeepsInv(n, acts);
    RunKeepsNames(n, acts);
    InFlightIs(Run(n, acts));
    hide Act, Possible, Run, Start, Inv;
  }

  lemma InFlightIs(n: Net)
    requires Inv(n) && n.srv.rel.inflight.Some?
    ensures OneInvite(n) && n.srv.rel.inflight.value.rtid == RTID(n.srv.hdr.callId, n.srv.hdr.fromTag, Number(n.srv), n.srv.hdr.cseq, INVITE)
  {
    hide Good, DataOk, HeldOk, InOrder, SeenUpTo;
  }

  // ---------------------------------------------------------------- a held answer leaves

  /** A state that holds this answer until the PRACK, and no ring with a code up to 100. */
  predicate HoldsAnswer(s: State, e: CCEvent) {
    WaitsForPrack(s) && s.rel.connect == Some(e) && (s.rel.ring.Some? ==> s.rel.ring.value.kind.Ring? && s.rel.ring.value.kind.code > 100)
  }

  predicate Holding(n: Net, e: CCEvent) { Inv(n) && HoldsAnswer(n.uas.st, e) }

  /** Anything but an end, a pre-connect or another answer, and the PRACK that is taken. */
  predicate Patient(n: Net, act: Action, now: int) {
    match act
    case AgentActs(i, _) =>
      i.NextEvent? || i.Elsewhere? ||
      (i.GetEvent? && n.uas.st.UasRingingRel? && !Frees(n.uas.st.rel.prackWait, i.e.kind) && !i.e.kind.Connect?)
    case PrackArrives(prack, tag) => !TakesPrack(n, ServerRuns.Event(ServerRuns.Recv(prack, tag), now))
    case _ => true
  }

  predicate AllPatient(n: Net, acts: seq<Timed>)
    requires Possible(n, acts)
    decreases |acts|
  {
    acts == [] || (Patient(n, acts[0].act, acts[0].now) && AllPatient(Act(n, acts[0].act, acts[0].now), acts[1..]))
  }

  lemma HeldMeanwhile(u: Ua, i: Input, e: CCEvent, now: int)
    requires HoldsAnswer(u.st, e) && Guard(u, i)
    requires i.NextEvent? || i.Elsewhere? || (i.GetEvent? && !Frees(u.st.rel.prackWait, i.e.kind) && !i.e.kind.Connect?)
    ensures Step(u, i, now).effs == [] && HoldsAnswer(Step(u, i, now).u.st, e)
  {
  }

  lemma PatientKeeps(n: Net, act: Action, now: int, e: CCEvent)
    requires Holding(n, e) && Enabled(n, act) && Patient(n, act, now)
    ensures Holding(Act(n, act, now), e)
  {
    ActKeepsInv(n, act, now);
    hide Inv, ServerRuns.Apply, ClientRuns.Apply, RecvResponse, HandleResponse, Step, TakesPrack, Transmitted, Guard;
    match act
    case AgentActs(i, _) => HeldMeanwhile(n.uas, i, e, now);
    case _ =>
  }

  lemma {:induction false} PatientRun(n: Net, acts: seq<Timed>, e: CCEvent)
    requires Holding(n, e) && Possible(n, acts) && AllPatient(n, acts)
    ensures Holding(Run(n, acts), e)
    decreases |acts|
  {
    if acts != [] {
      PatientKeeps(n, acts[0].act, acts[0].now, e);
      PatientRun(Act(n, acts[0].act, acts[0].now), acts[1..], e);
    }
    hide Act, Holding, Patient;
  }

  /** The response goes out as the agent wants it. */
  lemma AnswerSent(n: Net, d: Done, f: Eff, tag: Token, now: int)
    requires CallerSide(n.uas.st) && d.effs == [f] && f.Respond? && tag != EMPTY
    requires ServerRuns.Inv(n.srv) && n.srv.live && Server.Unanswered(n.srv)
    ensures var n' := Answer(n, d, tag, now);
            n'.uas == d.u && exists m <- n'.responses :: m.code == f.code && m.body == f.body
  {
    var e := ServerRuns.Event(ServerRuns.Send(Response(f.code, EMPTY, None, f.body), f.ackWait, tag), now);
    SendTransmits(n.tab, n.srv, e);
    hide ServerRuns.Apply, ServerRuns.Inv;
  }

  lemma SendTransmits(t: Server.Tables, s: Server.Srv, e: ServerRuns.Event)
    requires ServerRuns.Inv(s) && s.live && Server.Unanswered(s) && e.input.Send? && e.input.genTag != EMPTY
    ensures exists m <- Transmitted(ServerRuns.Apply(t, ME, s, e).outs) :: m.code == e.input.resp.code && m.body == e.input.resp.body
  {
    var outs := ServerRuns.Apply(t, ME, s, e).outs;
    ServerRuns.SendKeepsInv(t, ME, s, e.input.resp, e.input.wantAck, e.input.genTag, e.at);
    assert outs[0].resp in Transmitted(outs);
  }

  /** Taking the PRACK, the transaction stays as unanswered as it was. */
  lemma TakenKeepsServer(n: Net, e: ServerRuns.Event)
    requires Inv(n) && e.input.Recv? && TakesPrack(n, e)
    ensures var s := ServerStep(n, e).srv; s.live && ServerRuns.Inv(s) && (Server.Unanswered(n.srv) ==> Server.Unanswered(s))
    ensures e.input.genTag != EMPTY
  {
    ServerRuns.ApplyKeepsInv(n.tab, ME, n.srv, e);
    ServerPracks(n.tab, ME, n.srv, e);
    hide Good, DataOk, HeldOk, InOrder, SeenOk;
  }

  /** An answer that the agent was handed while it waited leaves with the next PRACK that is taken, with
      its code and body, whatever happened in between but an end, a pre-connect or another answer, and
      unless the transaction has answered by itself. */
  lemma HeldAnswerLeaves(n: Net, acts: seq<Timed>, e: CCEvent, prack: Request, tag: Token, now: int)
    requires Holding(n, e) && e.kind.Connect? && Possible(n, acts) && AllPatient(n, acts)
    requires Enabled(Run(n, acts), PrackArrives(prack, tag))
    requires TakesPrack(Run(n, acts), ServerRuns.Event(ServerRuns.Recv(prack, tag), now)) && Server.Unanswered(Run(n, acts).srv)
    ensures var n' := Act(Run(n, acts), PrackArrives(prack, tag), now);
            n'.uas.st.UasPreConnect? && exists m <- n'.responses :: m.code == e.kind.code && m.body == e.kind.body
  {
    PatientRun(n, acts, e);
    var n1 := Run(n, acts);
    var ev := ServerRuns.Event(ServerRuns.Recv(prack, tag), now);
    TakenKeepsServer(n1, ev);
    HeldIsReady(n1, e);
    Laws.PrackLetsGo(n1.uas, prack.body, now);
    hide Inv, Run, RecvPrack, Answer, TakesPrack;
    var d := RecvPrack(n1.uas, prack.body, now);
    var n2 := ServerStep(n1, ev).(acked := n1.acked + 1);
    assert d.effs == [Respond(e.kind.code, e.kind.body, true)];
    assert n2.uas == n1.uas;
    AnswerSent(n2, d, d.effs[0], tag, now);
    assert Act(n1, PrackArrives(prack, tag), now) == Answer(n2, d, tag, now);
  }

  lemma HeldIsReady(n: Net, e: CCEvent)
    requires Holding(n, e)
    ensures Good(n.uas) && PendingOk(n.uas.st)
  {
    hide Good, ServerOk, NetworkOk, SeenOk, AcceptedOk;
  }

  // ---------------------------------------------------------------- where the waiting state falls short

  predicate SendsSuccess(effs: seq<Eff>) { exists f <- effs :: f.Respond? && 200 <= f.code < 300 }

  /** While a provisional response with an offer or answer is unacknowledged a 2xx has to wait
      (section 3 of RFC 3262).  It waits when it comes as a connect event, and does not when it comes
      as a pre-connect event. */
  lemma SuccessWaitsExactly(u: Ua, e: CCEvent, now: int)
    requires WaitsForPrack(u.st) && u.st.rel.prackWait && Answers(e.kind) && 200 <= e.kind.code < 300
    ensures SendsSuccess(RecvEvent(u, e, now).effs) <==> e.kind.PreConnect?
  {
    if e.kind.PreConnect? { assert Respond(e.kind.code, e.kind.body, true) in RecvEvent(u, e, now).effs; }
  }

  /** A ring event that comes while the PRACK is awaited is kept for later exactly if its code is over
      100: the code 0, which elsewhere stands for 180, is lost. */
  lemma RingKeptExactly(u: Ua, e: CCEvent, now: int)
    requires WaitsForPrack(u.st) && e.kind.Ring?
    ensures var d := RecvEvent(u, e, now);
            d.effs == [] && WaitsForPrack(d.u.st) && (d.u.st.rel.ring == (if e.kind.code > 100 then Some(e) else u.st.rel.ring))
  {
  }

  /** After a PRACK every ring event puts the agent back into waiting; it has sent the response it
      waits for exactly if that response is a reliable one, which a code of 100 is not. */
  lemma WaitsForNothingExactly(u: Ua, e: CCEvent, now: int)
    requires u.st.UasRingingRel? && u.st.rel.prackReceived && e.kind.Ring?
    ensures var d := RecvEvent(u, e, now);
            WaitsForPrack(d.u.st) && (SendsOne(d.effs) <==> 100 < RingCode(e.kind.code) < 200) && (e.kind.code == 100 ==> d.effs == [])
  {
  }

  /** The events that get a response out of an agent that waits for a PRACK. */
  predicate Frees(prackWait: bool, k: Kind) {
    k.PreConnect? || k.Redirect? || k.Fail? || k.Disconnect? || (k.Connect? && !prackWait)
  }

  predicate SameWait(u: Ua, u': Ua) {
    WaitsForPrack(u.st) && WaitsForPrack(u'.st) && u'.st.rel.prackWait == u.st.rel.prackWait
  }

  /** Any other event leaves it waiting as before. */
  lemma FreedExactly(u: Ua, e: CCEvent, now: int)
    requires WaitsForPrack(u.st)
    ensures var d := RecvEvent(u, e, now);
            ((exists f <- d.effs :: f.Respond?) <==> Frees(u.st.rel.prackWait, e.kind)) &&
            (!Frees(u.st.rel.prackWait, e.kind) ==> d.effs == [] && SameWait(u, d.u))
  {
    hide SetConnectTs, SetDisconnectTs, AnswerInvite, CancelExpire;
    if Frees(u.st.rel.prackWait, e.kind) {
      var r := HandleEvent(u, e, now);
      assert r.effs[0].Respond? && RecvEvent(u, e, now).effs[0] == r.effs[0];
    }
  }

  /** The agent waits for a PRACK, and its transaction for none. */
  predicate Stuck(n: Net) {
    WaitsForPrack(n.uas.st) && n.srv.rel.inflight.None? && n.srv.Invite() &&
    forall p <- n.pracks :: p.hdr.sipMethod == PRACK && p.rack.Some?
  }

  /** A ring event with code 100 after a PRACK is how it comes to that. */
  lemma LateTryingSticks(n: Net, e: CCEvent, tag: Token, now: int)
    requires Inv(n) && CanSend(n.uas.st) && n.uas.st.UasRingingRel? && e.kind.Ring? && e.kind.code == 100
    requires forall p <- n.pracks :: p.hdr.sipMethod == PRACK
    ensures Enabled(n, AgentActs(GetEvent(e), tag)) && Stuck(Act(n, AgentActs(GetEvent(e), tag), now))
  {
    WaitsForNothingExactly(n.uas, e, now);
    hide RecvEvent, Good, ServerRuns.Inv, DataOk, HeldOk, InOrder, SeenUpTo;
  }

  /** A transaction without a response in flight refuses every PRACK. */
  lemma NothingInFlightRefusesPrack(t: Server.Tables, s: Server.Srv, req: Request)
    requires s.rel.inflight.None? && req.rack.Some?
    ensures Server.RecvPrack(t, s, req) == Server.Step(t, s, [Server.Reply(PRACK, 481)])
  {
  }

  /** Events that free nobody, PRACKs, and everything the calling side and the network do. */
  predicate Holds(n: Net, act: Action) {
    match act
    case AgentActs(i, _) =>
      i.NextEvent? || i.Elsewhere? || (i.GetEvent? && n.uas.st.UasRingingRel? && !Frees(n.uas.st.rel.prackWait, i.e.kind))
    case ServerActs(_) => false
    case _ => true
  }

  lemma PrackRefused(n: Net, e: ServerRuns.Event)
    requires Stuck(n) && e.input.Recv? && e.input.req in n.pracks
    ensures PrackArrived(n, e) == n
  {
    NothingInFlightRefusesPrack(n.tab, n.srv, e.input.req);
    if ServerRuns.Inv(n.srv) {
      var st := ServerRuns.Apply(n.tab, ME, n.srv, e);
      assert st.t == n.tab && st.s == n.srv && Server.PrackCb !in st.outs && Transmitted(st.outs) == {};
    }
    hide ServerRuns.Inv;
  }

  lemma StaysStuck(n: Net, act: Action, now: int)
    requires Stuck(n) && Enabled(n, act) && Holds(n, act)
    ensures var n' := Act(n, act, now); Stuck(n') && n'.responses == n.responses && n'.srv == n.srv && SameWait(n.uas, n'.uas)
  {
    hide ClientRuns.Apply, RecvResponse, HandleResponse, RecvEvent, PrackArrived, ServerStep;
    match act
    case AgentActs(i, _) => if i.GetEvent? { FreedExactly(n.uas, i.e, now); }
    case PrackArrives(prack, tag) => PrackRefused(n, ServerRuns.Event(ServerRuns.Recv(prack, tag), now));
    case ResponseArrives(_, _, _) =>
    case CallerActs(_) => hide Step;
    case ClientActs(_) =>
  }

  predicate AllHold(n: Net, acts: seq<Timed>)
    requires Possible(n, acts)
    decreases |acts|
  {
    acts == [] || (Holds(n, acts[0].act) && AllHold(Act(n, acts[0].act, acts[0].now), acts[1..]))
  }

  /** From there on the caller gets no response whatever: no ring, update or held connect event, no PRACK
      and nothing the other side does gets one sent or ends the wait. */
  lemma {:induction false} WaitsForGood(n: Net, acts: seq<Timed>)
    requires Stuck(n) && Possible(n, acts) && AllHold(n, acts)
    ensures Stuck(Run(n, acts)) && Run(n, acts).responses == n.responses && Run(n, acts).srv == n.srv
    decreases |acts|
  {
    if acts != [] {
      StaysStuck(n, acts[0].act, acts[0].now);
      WaitsForGood(Act(n, acts[0].act, acts[0].now), acts[1..]);
    }
    hide Act, Stuck;
  }
}
