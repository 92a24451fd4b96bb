/** What a user agent tells its controller: an answer only once the call is established, a disconnect
    only when the call ends, and some end whenever it ends without having been told to. */
module UaReports {
  import opened Messages
  import opened UaSpec
  import opened UaProperties
  import opened UaHandlers
  import opened UaRuns

  predicate Answers(k: Kind) { k.Connect? || k.PreConnect? }

  /** The events a handler queued: none is an answer unless the call is established, none is a
      disconnect unless the call ends, none is an attempt unless the call is new. */
  predicate TruthfulFrom(s: seq<CCEvent>, from: nat, established: bool, ends: bool, starts: bool) {
    forall k :: from <= k < |s| ==>
      (Answers(s[k].kind) ==> established) && (s[k].kind.Disconnect? ==> ends) && (s[k].kind.Try? ==> starts)
  }

  /** A call that goes out may end with a failure or a redirect. */
  predicate SaysEnd(s: State, k: Kind) { k.Disconnect? || (CalleeSide(s) && Ends(k)) }

  /** The last event says that the call ends. */
  predicate LastEnds(s: seq<CCEvent>, from: nat, st: State) { from < |s| && SaysEnd(st, s[|s| - 1].kind) }

  predicate ReportsOk(u: Ua, r: Res, told: bool) {
    var from, s := |u.q.equeue|, r.u.q.equeue;
    match r.next
    case None => TruthfulFrom(s, from, Established(u.st), false, false)
    case Some(st) =>
      TruthfulFrom(s, from, Established(u.st) || Established(st), !LiveState(st), u.st.UasIdle? && CallerSide(st)) &&
      (Leaves(u.st, st) == 1 && !told ==> LastEnds(s, from, u.st))
  }

  lemma UacFinalReports(u: Ua, r: Resp, effs: seq<Eff>, code: int, now: int)
    requires r.m.code >= 200 && CalleeSide(u.st)
    ensures ReportsOk(u, UacFinal(u, r, effs, code, now), false)
  {
    hide SetConnectTs, EndSetup;
  }

  lemma UacTryingReports(u: Ua, r: Resp, lastRseq: int, now: int)
    requires u.st.UacTrying?
    ensures ReportsOk(u, UacTryingResponse(u, r, lastRseq, now).r, false)
  {
    hide Escalate, EscalateAgain, UacFinal;
    var u1 := Escalate(u.(call := u.call.(lastScode := r.m.code)), r.m.code, r.rtime);
    var u2 := CancelExpire(EscalateAgain(u1, r.m.code, r.rtime));
    if r.m.code >= 200 { UacFinalReports(u2, r, Pracks(r), r.m.code, now); }
  }

  lemma UacRingingReports(u: Ua, r: Resp, lastRseq: int, now: int)
    requires u.st.UacRinging?
    ensures ReportsOk(u, UacRingingResponse(u, r, lastRseq, now).r, false)
  {
    hide UacFinal;
    var u1 := CancelExpire(if r.m.code > 180 then u.(call := u.call.(lastScode := r.m.code)) else u);
    if r.m.code >= 200 { UacFinalReports(u1, r, [], 502, now); }
  }

  lemma UacUpdatingReports(u: Ua, r: Resp)
    requires u.st.UacUpdating?
    ensures ReportsOk(u, UacUpdatingResponse(u, r).r, false)
  {
    hide SetDisconnectTs;
  }

  lemma ResponseReports(u: Ua, r: Resp, lastRseq: int, now: int)
    ensures ReportsOk(u, HandleResponse(u, r, lastRseq, now).r, false)
  {
    hide UacTryingResponse, UacRingingResponse, UacUpdatingResponse;
    match u.st
    case UacTrying => UacTryingReports(u, r, lastRseq, now);
    case UacRinging => UacRingingReports(u, r, lastRseq, now);
    case UacUpdating => UacUpdatingReports(u, r);
    case _ =>
  }

  lemma ConnectedRequestReports(u: Ua, r: Req)
    requires u.st.Connected?
    ensures ReportsOk(u, ConnectedRequest(u, r), false)
  {
    hide SetDisconnectTs;
  }

  lemma RequestReports(u: Ua, r: Req)
    ensures ReportsOk(u, HandleRequest(u, r), false)
  {
    hide SetDisconnectTs, ConnectedRequest, UasIdleRequest, ReportsOk;
    if u.st.Connected? {
      ConnectedRequestReports(u, r);
    } else if u.st.UasIdle? {
      IdleRequestReports(u, r);
    } else {
      OtherRequestReports(u, r);
    }
  }

  lemma IdleRequestReports(u: Ua, r: Req)
    requires u.st.UasIdle?
    ensures ReportsOk(u, UasIdleRequest(u, r), false)
  {
    hide ExpireLimit, ProgressLimit;
  }

  lemma OtherRequestReports(u: Ua, r: Req)
    requires !u.st.Connected? && !u.st.UasIdle?
    ensures ReportsOk(u, HandleRequest(u, r), false)
  {
    hide SetDisconnectTs;
  }

  /** No event makes an agent queue an answer or a disconnect before the call is established. */
  lemma SetupEventReports(u: Ua, e: CCEvent, now: int)
    requires Setup(u.st)
    ensures HandleEvent(u, e, now).u.q.equeue == u.q.equeue
  {
    hide SetConnectTs, EndSetup, SetDisconnectTs;
  }

  lemma EstablishedEventReports(u: Ua, e: CCEvent, now: int)
    requires !Setup(u.st)
    ensures TruthfulFrom(HandleEvent(u, e, now).u.q.equeue, |u.q.equeue|, Established(u.st), false, false)
  {
    hide SetConnectTs, SetDisconnectTs;
  }

  // ---------------------------------------------------------------- what an event does

  /** What may wait for a PRACK or an ACK. */
  predicate PendingOk(s: State) {
    match s
    case UasRingingRel(rel) =>
      (rel.ring.Some? ==> rel.ring.value.kind.Ring?) && (rel.connect.Some? ==> rel.connect.value.kind.Connect?) &&
      (rel.update.Some? ==> rel.update.value.kind.Update?)
    case UasPreConnect(_, update) => update.Some? ==> update.value.kind.Update?
    case _ => true
  }

  predicate ConnectWaits(s: State) { s.UasRingingRel? && s.rel.connect.Some? }

  /** The state after a handler. */
  function StateAfter(r: Res): State {
    match r.next
    case None => r.u.st
    case Some(UacCancelling(_)) => UacCancelling(true)
    case Some(s) => s
  }

  /** A re-INVITE that waits for its answer takes a failure for the answer. */
  predicate Absorbs(s: State, k: Kind) { s.UasUpdating? && (k.Fail? || k.Redirect?) }

  /** An end ends the call unless it is absorbed; nothing else does; only an answer establishes it. */
  predicate EventMoves(s: State, k: Kind, s': State) {
    (LiveState(s) && Ends(k) ==> (LiveState(s') <==> Absorbs(s, k))) && (LiveState(s) && !Ends(k) ==> LiveState(s')) &&
    (Setup(s) && Established(s') ==> CallerSide(s) && Answers(k)) && (PendingOk(s) ==> PendingOk(s')) &&
    (ConnectWaits(s') && !ConnectWaits(s) ==> k.Connect?)
  }

  lemma EventOutcome(u: Ua, e: CCEvent, now: int)
    requires !u.st.NoState? && !u.st.UasIdle? && (u.st.UacIdle? ==> !e.kind.Redirect? && (Ends(e.kind) || e.kind.Try?))
    ensures EventMoves(u.st, e.kind, StateAfter(HandleEvent(u, e, now)))
  {
    hide SetConnectTs, EndSetup, SetDisconnectTs;
    if CallerSide(u.st) { CallerOutcome(u, e, now); } else { OtherOutcome(u, e, now); }
    hide HandleEvent;
  }

  lemma CallerOutcome(u: Ua, e: CCEvent, now: int)
    requires CallerSide(u.st)
    ensures EventMoves(u.st, e.kind, StateAfter(HandleEvent(u, e, now)))
  {
    hide SetConnectTs, SetDisconnectTs;
  }

  lemma OtherOutcome(u: Ua, e: CCEvent, now: int)
    requires !CallerSide(u.st) && !u.st.NoState? && !u.st.UasIdle?
    requires u.st.UacIdle? ==> !e.kind.Redirect? && (Ends(e.kind) || e.kind.Try?)
    ensures EventMoves(u.st, e.kind, StateAfter(HandleEvent(u, e, now)))
  {
    hide SetConnectTs, EndSetup, SetDisconnectTs;
  }

  /** Requests and responses: only a 2xx establishes a call. */
  predicate MessageMoves(s: State, s': State, success: bool) {
    (Setup(s) && Established(s') ==> CalleeSide(s) && success) && (PendingOk(s) ==> PendingOk(s')) &&
    (ConnectWaits(s') ==> ConnectWaits(s))
  }

  predicate Success(r: Resp) { 200 <= r.m.code < 300 }

  lemma ResponseOutcome(u: Ua, r: Resp, lastRseq: int, now: int)
    ensures MessageMoves(u.st, StateAfter(HandleResponse(u, r, lastRseq, now).r), Success(r))
  {
    hide SetConnectTs, EndSetup, SetDisconnectTs, Escalate, EscalateAgain;
  }

  lemma RequestOutcome(u: Ua, r: Req)
    ensures MessageMoves(u.st, StateAfter(HandleRequest(u, r)), false)
  {
    hide SetDisconnectTs;
  }

  // ---------------------------------------------------------------- what a step tells the controller

  /** New events tell the truth about the call. */
  predicate TrueEvents(u: Ua, u': Ua) {
    forall k :: |Sent(u)| <= k < |Sent(u')| ==>
      (Answers(Sent(u')[k].kind) ==> Established(u.st) || Established(u'.st)) &&
      (Sent(u')[k].kind.Disconnect? ==> !LiveState(u'.st)) &&
      (Sent(u')[k].kind.Try? ==> (u.st.NoState? || u.st.UasIdle?) && CallerSide(u'.st))
  }

  /** One of the new events says that the call has ended. */
  predicate EndReported(u: Ua, u': Ua) {
    exists k :: |Sent(u)| <= k < |Sent(u')| && SaysEnd(u.st, Sent(u')[k].kind)
  }

  lemma SettleReports(u: Ua, r: Res, told: bool)
    requires ReportsOk(u, r, told) && Queues(u.q, r.u.q) && (r.next.None? ==> SameKind(u.st, r.u.st))
    ensures TrueEvents(u, Settle(r).u) && Settle(r).u.st == StateAfter(r)
    ensures Leaves(u.st, StateAfter(r)) == 1 && !told ==> EndReported(u, Settle(r).u)
  {
    var q, s' := u.q, Sent(Settle(r).u);
    assert Settle(r).u.q == r.u.q;
    assert forall k :: |Sent(u)| <= k < |s'| ==> s'[k] == r.u.q.equeue[k - |q.outbox|];
    if r.next.Some? && Leaves(u.st, r.next.value) == 1 && !told {
      assert s'[|s'| - 1] == r.u.q.equeue[|r.u.q.equeue| - 1];
      assert SaysEnd(u.st, s'[|s'| - 1].kind);
    }
  }

  lemma IdleReports(u: Ua, e: CCEvent, now: int)
    requires u.st.NoState?
    ensures TrueEvents(u, RecvEvent(u, e, now).u)
    ensures RecvEvent(u, e, now).u.st in {NoState, UacTrying, Disconnected}
    ensures e.kind.Disconnect? ==> RecvEvent(u, e, now).u.st == Disconnected
  {
    hide SetDisconnectTs, EndSetup, ReplyLimit, ProgressLimit, ExpireLimit;
  }

  /** An event, at the level of the agent. */
  lemma EventReports(u: Ua, e: CCEvent, now: int)
    requires Good(u)
    ensures TrueEvents(u, RecvEvent(u, e, now).u)
    ensures !u.st.NoState? ==> EventMoves(u.st, e.kind, RecvEvent(u, e, now).u.st)
    ensures u.st.NoState? ==> RecvEvent(u, e, now).u.st in {NoState, UacTrying, Disconnected}
    ensures u.st.NoState? && e.kind.Disconnect? ==> RecvEvent(u, e, now).u.st == Disconnected
  {
    if !u.st.NoState? {
      EventOk(u, e, now);
      EventOutcome(u, e, now);
      if Setup(u.st) { SetupEventReports(u, e, now); } else { EstablishedEventReports(u, e, now); }
      hide HandleEvent, Settle, HandlerOk, Good, EventMoves;
      SettleReports(u, HandleEvent(u, e, now), true);
    } else {
      IdleReports(u, e, now);
    }
  }

  /** The agent was handed an event, or a 2xx, or a PRACK an answer waits for. */
  predicate Establishes(u: Ua, i: Input) {
    match i
    case GetEvent(e) => CallerSide(u.st) && Answers(e.kind)
    case GetPrack(_) => ConnectWaits(u.st)
    case GetResponse(resp, _) => CalleeSide(u.st) && Success(resp)
    case _ => false
  }

  predicate ToldToEnd(i: Input) { i.GetEvent? && Ends(i.e.kind) }

  /** What one step says and does. */
  predicate StepReports(u: Ua, i: Input, u': Ua) {
    TrueEvents(u, u') && (PendingOk(u.st) ==> PendingOk(u'.st)) &&
    (Setup(u.st) && Established(u'.st) ==> Establishes(u, i)) &&
    (Leaves(u.st, u'.st) == 1 ==> EndReported(u, u') || ToldToEnd(i)) &&
    (ConnectWaits(u'.st) && !ConnectWaits(u.st) ==> i.GetEvent? && Answers(i.e.kind))
  }

  lemma FirstRequestReports(u: Ua, u2: Ua, r: Req)
    requires u.st.NoState? && Fresh(u2) && u2.st.UasIdle? && r.verb == INVITE && u2.q == u.q
    ensures StepReports(u, GetRequest(r), Settle(UasIdleRequest(u2, r)).u)
  {
    UasIdleOk(u2, r);
    RequestReports(u2, r);
    SettleReports(u2, UasIdleRequest(u2, r), false);
    hide Settle, ExpireLimit, ProgressLimit, StartExpire, Starts, Fresh;
  }

  lemma LaterRequestReports(u: Ua, r: Req)
    requires Good(u) && !u.st.NoState?
    ensures StepReports(u, GetRequest(r), Settle(HandleRequest(u, r)).u)
  {
    RequestOk(u, r);
    RequestReports(u, r);
    RequestOutcome(u, r);
    SettleReports(u, HandleRequest(u, r), false);
    hide HandleRequest, Settle, HandlerOk, Good;
  }

  lemma RequestStepReports(u: Ua, r: Req)
    requires Good(u)
    ensures StepReports(u, GetRequest(r), RecvRequest(u, r).u)
  {
    var u1 := u.(call := u.call.(rCSeq := r.cseq));
    if !u.st.NoState? {
      LaterRequestReports(u1, r);
    } else if r.verb == INVITE && !(r.body.None? && r.requires100rel) {
      FirstRequestReports(
        u, Activate(u1.(call := u1.call.(prRel := r.body.Some? && (r.requires100rel || r.supports100rel))), UasIdle), r);
    }
    hide Settle, HandleRequest;
  }

  lemma ResponseStepReports(u: Ua, r: Resp, lastRseq: int, now: int)
    requires Good(u)
    ensures StepReports(u, GetResponse(r, lastRseq), RecvResponse(u, r, lastRseq, now).u)
  {
    if !u.st.NoState? {
      ResponseOk(u, r, lastRseq, now);
      ResponseReports(u, r, lastRseq, now);
      ResponseOutcome(u, r, lastRseq, now);
      SettleReports(u, HandleResponse(u, r, lastRseq, now).r, false);
      hide HandleResponse, Settle, HandlerOk, Good;
    } else {
      NothingHappens(u, now);
    }
  }

  lemma EventStepReports(u: Ua, e: CCEvent, now: int)
    requires Good(u)
    ensures StepReports(u, GetEvent(e), RecvEvent(u, e, now).u)
  {
    EventReports(u, e, now);
    if u.st.NoState? && RecvEvent(u, e, now).u.st == Disconnected { IdleEnds(u, e, now); }
    hide RecvEvent, Good;
  }

  lemma IdleEnds(u: Ua, e: CCEvent, now: int)
    requires u.st.NoState? && RecvEvent(u, e, now).u.st == Disconnected
    ensures Ends(e.kind)
  {
  }

  lemma OneMoreEvent(u: Ua, u1: Ua, u': Ua)
    requires TrueEvents(u1, u') && Sent(u1) <= Sent(u') && Sent(u) <= Sent(u1) && |Sent(u1)| == |Sent(u)| + 1
    requires Sent(u1)[|Sent(u)|].kind.Disconnect? && !LiveState(u'.st) && u1.st == u.st
    ensures TrueEvents(u, u') && EndReported(u, u')
  {
    var s, s' := Sent(u), Sent(u');
    assert s'[|s|] == Sent(u1)[|s|];
    assert SaysEnd(u.st, s'[|s|].kind);
  }

  lemma RecvEventCarries(u: Ua, e: CCEvent, now: int)
    requires Good(u)
    ensures Sent(u) <= Sent(RecvEvent(u, e, now).u)
  {
    EventStep(u, e, now);
    hide RecvEvent, Good, Endings, InRole, Escalates, Allowed;
  }

  /** The agent once `Disconnect` has created its two events, and the one it hands itself. */
  function HangingUp(u: Ua, now: int): Ua {
    var u1 := Enqueue(u, Disconnect(false), now);
    u1.(q := u1.q.(nextSeq := u1.q.nextSeq + 1))
  }

  function OwnEvent(u: Ua, now: int): CCEvent { CCEvent(u.q.nextSeq + 1, Disconnect(false), now) }

  lemma HangingUpOk(u: Ua, now: int)
    requires Good(u)
    ensures var u1 := HangingUp(u, now);
            Good(u1) && u1.st == u.st && Sent(u) <= Sent(u1) && |Sent(u1)| == |Sent(u)| + 1 &&
            Sent(u1)[|Sent(u)|].kind.Disconnect?
    ensures u.call.hooked ==> Hangup(u, now) == RecvEvent(HangingUp(u, now), OwnEvent(u, now), now)
    ensures !u.call.hooked ==> Hangup(u, now) == Done(u, [], []) && !LiveState(u.st)
  {
    EnqueueKeeps(u, Disconnect(false), now, 1);
    assert Sent(HangingUp(u, now)) == Sent(u) + [Event(u, Disconnect(false), now)];
    hide RecvEvent, QueueOk;
  }

  lemma HangupReports(u: Ua, now: int)
    requires Good(u)
    ensures LiveState(u.st) ==> !LiveState(Hangup(u, now).u.st) && EndReported(u, Hangup(u, now).u)
    ensures TrueEvents(u, Hangup(u, now).u) && (PendingOk(u.st) ==> PendingOk(Hangup(u, now).u.st))
  {
    HangingUpOk(u, now);
    if u.call.hooked {
      hide Hangup, HangingUp, OwnEvent, RecvEvent, Good, TrueEvents, EventMoves, PendingOk, EndReported, Sent;
      var u1, e := HangingUp(u, now), OwnEvent(u, now);
      EventReports(u1, e, now);
      RecvEventCarries(u1, e, now);
      OwnEventIs(u, now);
      ClosedByEvent(u1, e, now);
      OneMoreEvent(u, u1, RecvEvent(u1, e, now).u);
    } else {
      NothingTold(u);
    }
  }

  lemma OwnEventIs(u: Ua, now: int)
    ensures OwnEvent(u, now).kind.Disconnect?
  {
  }

  lemma NothingTold(u: Ua)
    ensures TrueEvents(u, u)
  {
  }

  lemma ClosedByEvent(u: Ua, e: CCEvent, now: int)
    requires Good(u) && e.kind.Disconnect?
    ensures !LiveState(RecvEvent(u, e, now).u.st) && (PendingOk(u.st) ==> PendingOk(RecvEvent(u, e, now).u.st))
  {
    EventReports(u, e, now);
    EventStep(u, e, now);
    hide RecvEvent, Good, Endings, InRole, Escalates, TrueEvents;
  }

  lemma AckReports(u: Ua, body: Option<Body>, rtime: int, now: int)
    requires Good(u) && u.q.equeue == [] && PendingOk(u.st)
    ensures StepReports(u, GetAck(body, rtime), RecvAck(u, body, rtime, now).u)
  {
    if u.st.UasPreConnect? {
      var d := if u.st.confirm then ConfirmConnect(u, body, rtime) else ChangeState(u, Connected, None);
      if u.st.confirm { ConfirmStep(u, body, rtime); } else { ConnectedAt(u); }
      EstablishedTells(u, d.u);
      hide ConfirmConnect, ChangeState, RecvEvent, Good, Endings, InRole, EndReported, Escalates;
      if u.st.pendingUpdate.Some? {
        EventReports(d.u, u.st.pendingUpdate.value, now);
        EventStep(d.u, u.st.pendingUpdate.value, now);
        TrueThen(u, d.u, RecvEvent(d.u, u.st.pendingUpdate.value, now).u);
      }
    }
  }

  lemma EstablishedTells(u: Ua, u': Ua)
    requires Established(u.st) && Sent(u) <= Sent(u')
    requires forall k :: |Sent(u)| <= k < |Sent(u')| ==> !Sent(u')[k].kind.Disconnect? && !Sent(u')[k].kind.Try?
    ensures TrueEvents(u, u')
  {
  }

  lemma TrueThen(u: Ua, u1: Ua, u': Ua)
    requires TrueEvents(u, u1) && TrueEvents(u1, u') && Sent(u) <= Sent(u1) <= Sent(u')
    requires Established(u1.st) ==> Established(u.st) || Established(u'.st)
    requires (LiveState(u1.st) || !LiveState(u'.st)) && !u.st.NoState? && !u.st.UasIdle? && Begun(u1.st)
    ensures TrueEvents(u, u')
  {
    forall k | |Sent(u)| <= k < |Sent(u1)| ensures Sent(u')[k] == Sent(u1)[k] {
    }
  }

  lemma PrackReports(u: Ua, body: Option<Body>, now: int)
    requires Good(u) && PendingOk(u.st)
    ensures StepReports(u, GetPrack(body), RecvPrack(u, body, now).u)
  {
    hide Release, RecvEvent, Good, Endings, InRole, Escalates, Clears, Forget, EndReported;
    if u.st.UasRingingRel? {
      ReleaseReports(u);
      ReleaseStep(u);
      var d := Release(u);
      if u.st.rel.update.Some? {
        EventReports(d.u, u.st.rel.update.value, now);
        EventStep(d.u, u.st.rel.update.value, now);
        TrueThen(u, d.u, RecvEvent(d.u, u.st.rel.update.value, now).u);
        ForgetReports(RecvEvent(d.u, u.st.rel.update.value, now).u, body);
      } else {
        ForgetReports(d.u, body);
      }
    }
  }

  lemma ForgetReports(u: Ua, body: Option<Body>)
    ensures PendingOk(u.st) ==> PendingOk(Forget(u, body).st)
    ensures var u' := Forget(u, body); Sent(u') == Sent(u) && SameKind(u.st, u'.st) && !ConnectWaits(u'.st)
    ensures !u.st.UasRingingRel? ==> Forget(u, body).st == u.st
  {
  }

  lemma ReleaseReports(u: Ua)
    requires Good(u) && PendingOk(u.st) && u.st.UasRingingRel?
    ensures TrueEvents(u, Release(u).u) && PendingOk(Release(u).u.st) && LiveState(Release(u).u.st)
    ensures Begun(Release(u).u.st) && (ConnectWaits(Release(u).u.st) ==> ConnectWaits(u.st))
    ensures Established(Release(u).u.st) ==> ConnectWaits(u.st)
  {
    var u0 := SetRel(u, u.st.rel.(prackReceived := true));
    if ConnectWaits(u.st) {
      ReleasedReports(u0, u.st.rel.connect.value);
    } else if u.st.rel.ring.Some? {
      ReleasedReports(u0, u.st.rel.ring.value);
    }
    hide RingingRelEvent, Settle, Good;
  }

  lemma ReleasedReports(u: Ua, e: CCEvent)
    requires Good(u) && PendingOk(u.st) && u.st.UasRingingRel? && (e.kind.Ring? || e.kind.Connect?)
    ensures var d := Settle(RingingRelEvent(u, e)); TrueEvents(u, d.u) && EventMoves(u.st, e.kind, d.u.st) && Begun(d.u.st)
  {
    RingingRelOk(u, e);
    EventOutcome(u, e, 0);
    SetupEventReports(u, e, 0);
    assert HandleEvent(u, e, 0) == RingingRelEvent(u, e);
    SettleReports(u, RingingRelEvent(u, e), true);
    hide RingingRelEvent, Settle, Good;
  }

  lemma CancelReports(u: Ua, now: int)
    requires Good(u) && u.call.open != Answered && u.q.equeue == []
    ensures StepReports(u, GetCancel, RecvCancel(u, now).u)
  {
    var e := Event(u, Disconnect(false), now);
    EmitKeeps(u, Cancelled(u, now).u, e);
    CancelStep(u, now);
    CancelledOk(u, now);
    var u' := RecvCancel(u, now).u;
    assert u' == Emit(Cancelled(u, now).u, e);
    assert LiveState(u.st) ==> Cancelled(u, now).u.call.hooked;
    hide RecvCancel, Cancelled, Good, Emit, QueueOk;
    if u'.q.outbox == u.q.outbox + [e] {
      assert Sent(u')[|Sent(u)|] == e;
    }
  }

  /** Every step: an answer is announced only for a call that is established, a disconnect only for one
      that has ended, and a call that ends without having been told so says so.  A call that is being
      set up is established only by an answer from the controller, by the PRACK an answer waited for,
      or by a 2xx. */
  lemma StepTells(u: Ua, i: Input, now: int)
    requires Good(u) && PendingOk(u.st) && Guard(u, i)
    ensures StepReports(u, i, Step(u, i, now).u)
  {
    hide RecvRequest, RecvResponse, RecvEvent, RecvCancel, RecvAck, RecvPrack, Hangup, Good, PendingOk;
    match i
    case GetRequest(r) => RequestStepReports(u, r);
    case GetResponse(resp, lastRseq) => ResponseStepReports(u, resp, lastRseq, now);
    case GetEvent(e) => EventStepReports(u, e, now);
    case GetCancel => CancelReports(u, now);
    case GetAck(body, rtime) => AckReports(u, body, rtime, now);
    case GetPrack(body) => PrackReports(u, body, now);
    case GetTimeout(which) => TimeoutReports(u, which, now);
    case GetHangup => HangupMoves(u, now);
    case GetDeadTimeout => DeadReports(u);
    case NextEvent => NextEventStep(u, now);
    case Elsewhere =>
  }

  lemma DeadReports(u: Ua)
    requires Good(u) && Guard(u, GetDeadTimeout)
    ensures StepReports(u, GetDeadTimeout, GoDead(u).u)
  {
  }

  lemma HangupMoves(u: Ua, now: int)
    requires Good(u) && PendingOk(u.st)
    ensures StepReports(u, GetHangup, Hangup(u, now).u)
  {
    HangupReports(u, now);
    HangupStep(u, now);
    hide Hangup, Good, TrueEvents, EndReported, Endings, InRole, Escalates;
  }

  lemma TimeoutReports(u: Ua, which: SetupTimer, now: int)
    requires Good(u) && PendingOk(u.st) && Deadline(u.timers, which).Some?
    ensures StepReports(u, GetTimeout(which), SetupTimerFires(u, which, now).u)
  {
    var u1 := match which case NoReply => CancelNoReply(u) case NoProgress => CancelNoProgress(u) case Expire => CancelExpire(u);
    HangupMoves(u1, now);
    hide Hangup;
  }

  /** An agent without a state has told nobody anything, takes a call in with one event, and starts a call to the callee only when it is
      handed the attempt. */
  predicate StartOk(u: Ua, i: Input, u': Ua) {
    (u'.st.NoState? ==> u.st.NoState? && Sent(u') == Sent(u)) &&
    (u.st.NoState? && CallerSide(u'.st) ==> |Sent(u')| == |Sent(u)| + 1) &&
    (CalleeSide(u'.st) ==> CalleeSide(u.st) || (u.st.NoState? && i.GetEvent? && i.e.kind.Try?))
  }

  lemma StartTells(u: Ua, i: Input, now: int)
    requires Good(u) && PendingOk(u.st) && Guard(u, i)
    ensures StartOk(u, i, Step(u, i, now).u)
  {
    if !u.st.NoState? {
      StepKeeps(u, i, now);
      if Revives(u, i) { CancelStep(u, now); }
    } else {
      FirstStep(u, i, now);
    }
    hide Step, Good, PendingOk;
  }

  lemma FirstStep(u: Ua, i: Input, now: int)
    requires Good(u) && u.st.NoState? && Guard(u, i)
    ensures StartOk(u, i, Step(u, i, now).u)
  {
    hide RecvEvent, RecvRequest;
    match i
    case GetRequest(r) => FirstRequest(u, r);
    case GetEvent(e) => FirstEvent(u, e, now);
    case GetHangup => FirstHangup(u, now);
    case NextEvent => NextEventStep(u, now);
    case _ =>
  }

  lemma FirstHangup(u: Ua, now: int)
    requires Good(u) && u.st.NoState?
    ensures Hangup(u, now).u.st == Disconnected
  {
    var u1 := Enqueue(u, Disconnect(false), now);
    IdleReports(u1.(q := u1.q.(nextSeq := u1.q.nextSeq + 1)), Event(u1, Disconnect(false), now), now);
    hide RecvEvent;
  }

  lemma FirstRequest(u: Ua, r: Req)
    requires u.st.NoState?
    ensures StartOk(u, GetRequest(r), RecvRequest(u, r).u)
  {
    hide ProgressLimit, ExpireLimit, StartExpire;
  }

  lemma FirstEvent(u: Ua, e: CCEvent, now: int)
    requires u.st.NoState?
    ensures StartOk(u, GetEvent(e), RecvEvent(u, e, now).u)
  {
    hide EndSetup, StartFirstTimer, ReplyLimit, ProgressLimit, ExpireLimit;
  }
}
