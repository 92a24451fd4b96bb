/** Each handler of each state, one by one: the states and callbacks it asks for, the timers and time
    stamps it leaves, and the events it queues. */
module UaHandlers {
  import opened Messages
  import opened UaSpec
  import opened UaProperties

  /** The same state object, whose fields may have changed. */
  predicate SameKind(s: State, s': State) {
    s == s' || (s.UasRingingRel? && s'.UasRingingRel?) || (s.UasPreConnect? && s'.UasPreConnect?) ||
    (s.UacCancelling? && s'.UacCancelling?)
  }

  predicate EndsCall(cb: Option<Cb>) { cb.Some? && Ending(cb.value) }

  /** The states a handler may ask for, and the callback that goes with them. */
  predicate NextOk(u: Ua, r: Res) {
    SameRole(u, r.u) && SameKind(u.st, r.u.st) && !EndsCall(r.call) && r.u.call.hooked == u.call.hooked &&
    (CalleeSide(u.st) || u.st.UacIdle? ==> r.u.call.open == u.call.open) &&
    match r.next
    case None => InRole(r.u.call.origin, u.st)
    case Some(s) =>
      Allowed(u.st, s) && InRole(r.u.call.origin, s) && (EndsCall(r.cb) <==> Leaves(u.st, s) == 1) &&
      !s.NoState? && !s.UasIdle? && !s.UacIdle? && (s.Dead? ==> !LiveState(u.st))
  }

  predicate KeepsLimits(u: Ua, u': Ua) {
    u'.cfg == u.cfg && u'.limits == u.limits && u'.stamps.setup == u.stamps.setup
  }

  predicate Clears(t: SetupTimers, t': SetupTimers) {
    (t'.noReply.None? || t'.noReply == t.noReply) && (t'.noProgress.None? || t'.noProgress == t.noProgress) &&
    (t'.expire.None? || t'.expire == t.expire)
  }

  predicate WaitsForReply(t: SetupTimers) { t.noReply.Some? || t.noProgress.Some? }

  /** Timers are only cancelled, or the one that runs gives way to the next. */
  predicate Moves(u: Ua, u': Ua, start: int) {
    KeepsLimits(u, u') &&
    (Clears(u.timers, u'.timers) ||
     (WaitsForReply(u.timers) && u'.timers == StartExpire(u.(timers := NO_TIMERS), start).timers) ||
     (u.timers.noReply.Some? && u'.timers == StartNoProgress(u.(timers := NO_TIMERS)).timers))
  }

  lemma MovesKeepTimers(u: Ua, u': Ua, start: int)
    requires TimersOk(u) && Moves(u, u', start)
    ensures Escalates(u, u', start) && ((u'.st.NoState? ==> u.st.NoState?) ==> TimersOk(u'))
  {
  }

  /** The timers the next state will find. */
  predicate NextTimersOk(r: Res) {
    match r.next
    case None => TimersFit(r.u.st, r.u.timers)
    case Some(s) =>
      TimersFit(s, if r.u.st.Connected? || r.u.st.UasPreConnect? then r.u.timers.(expire := None) else r.u.timers)
  }

  /** Events are appended with fresh numbers; none is handed over. */
  predicate Queues(q: Queue, q': Queue) {
    q'.outbox == q.outbox && q'.elastSeq == q.elastSeq && |q.equeue| <= |q'.equeue| &&
    q'.equeue[..|q.equeue|] == q.equeue && q.nextSeq + |q'.equeue| - |q.equeue| <= q'.nextSeq &&
    forall k :: |q.equeue| <= k < |q'.equeue| ==> q'.equeue[k].seqNo == q.nextSeq + k - |q.equeue|
  }

  predicate Times(u: Ua, r: Res, start: int) {
    Moves(u, r.u, start) && NextTimersOk(r) && (StampsOk(u.stamps) ==> StampsOk(r.u.stamps))
  }

  predicate Ready(u: Ua) {
    InRole(u.call.origin, u.st) && AtMostOneTimer(u.timers) && TimersFit(u.st, u.timers)
  }

  predicate HandlerOk(u: Ua, r: Res, start: int) { NextOk(u, r) && Times(u, r, start) && Queues(u.q, r.u.q) }

  /** A handler that leaves the timers alone. */
  predicate Rest(u: Ua, r: Res) {
    Queues(u.q, r.u.q) && r.u.timers == u.timers && KeepsLimits(u, r.u) && r.u.st == u.st &&
    (StampsOk(u.stamps) ==> StampsOk(r.u.stamps))
  }

  /** A handler that sets the timers up. */
  predicate Starts(u: Ua, r: Res) {
    NextOk(u, r) && r.next.Some? && TimersOk(r.u) && NextTimersOk(r) && Queues(u.q, r.u.q) && r.u.cfg == u.cfg &&
    (StampsOk(u.stamps) ==> StampsOk(r.u.stamps))
  }

  predicate Fresh(u: Ua) {
    InRole(u.call.origin, u.st) && u.timers == NO_TIMERS && TimersOk(u) && u.stamps.setup.None?
  }

  // ---------------------------------------------------------------- the side that calls

  lemma UacIdleOk(u: Ua, e: CCEvent, now: int)
    requires u.st.UacIdle? && Fresh(u) && (e.kind.Try? || e.kind.Fail? || e.kind.Disconnect?)
    ensures Starts(u, UacIdleEvent(u, e, now))
  {
    hide SetConnectTs, SetDisconnectTs, EndSetup;
  }

  lemma UacFinalNext(u: Ua, r: Resp, effs: seq<Eff>, code: int, now: int)
    requires (u.st.UacTrying? || u.st.UacRinging?) && InRole(u.call.origin, u.st) && r.m.code >= 200
    ensures NextOk(u, UacFinal(u, r, effs, code, now))
  {
    hide SetConnectTs, SetDisconnectTs, EndSetup;
  }

  lemma UacFinalRest(u: Ua, r: Resp, effs: seq<Eff>, code: int, now: int)
    ensures Rest(u, UacFinal(u, r, effs, code, now))
    ensures UacFinal(u, r, effs, code, now).next in {Some(Failed), Some(Connected)}
  {
    hide SetConnectTs, SetDisconnectTs, EndSetup;
  }

  lemma UacTryingNext(u: Ua, r: Resp, lastRseq: int, now: int)
    requires u.st.UacTrying? && Ready(u)
    ensures NextOk(u, UacTryingResponse(u, r, lastRseq, now).r)
    ensures Queues(u.q, UacTryingResponse(u, r, lastRseq, now).r.u.q)
  {
    hide Escalate, EscalateAgain, UacFinal;
    var u1 := Escalate(u.(call := u.call.(lastScode := r.m.code)), r.m.code, r.rtime);
    var u2 := CancelExpire(EscalateAgain(u1, r.m.code, r.rtime));
    if r.m.code >= 200 { UacFinalNext(u2, r, Pracks(r), r.m.code, now); }
    UacFinalRest(u2, r, Pracks(r), r.m.code, now);
  }

  lemma UacTryingTimes(u: Ua, r: Resp, lastRseq: int, now: int)
    requires u.st.UacTrying? && Ready(u)
    ensures Times(u, UacTryingResponse(u, r, lastRseq, now).r, r.rtime)
  {
    hide UacFinal, Queues;
    var u1 := Escalate(u.(call := u.call.(lastScode := r.m.code)), r.m.code, r.rtime);
    UacFinalRest(CancelExpire(EscalateAgain(u1, r.m.code, r.rtime)), r, Pracks(r), r.m.code, now);
  }

  lemma UacRingingOk(u: Ua, r: Resp, lastRseq: int, now: int)
    requires u.st.UacRinging? && Ready(u)
    ensures HandlerOk(u, UacRingingResponse(u, r, lastRseq, now).r, r.rtime)
  {
    hide UacFinal;
    var u1 := CancelExpire(if r.m.code > 180 then u.(call := u.call.(lastScode := r.m.code)) else u);
    if r.m.code >= 200 { UacFinalNext(u1, r, [], 502, now); }
    UacFinalRest(u1, r, [], 502, now);
  }

  lemma UacUpdatingNext(u: Ua, r: Resp)
    requires u.st.UacUpdating? && Ready(u)
    ensures NextOk(u, UacUpdatingResponse(u, r).r)
  {
    hide TimersFit, AtMostOneTimer, SetDisconnectTs;
  }

  lemma UacUpdatingTimes(u: Ua, r: Resp)
    requires u.st.UacUpdating? && Ready(u)
    ensures Times(u, UacUpdatingResponse(u, r).r, r.rtime)
  {
    hide SetDisconnectTs;
  }

  lemma UacUpdatingQueues(u: Ua, r: Resp)
    ensures Queues(u.q, UacUpdatingResponse(u, r).r.u.q)
  {
    hide SetDisconnectTs;
  }

  lemma UacCancellingOk(u: Ua, r: Resp)
    requires u.st.UacCancelling? && Ready(u)
    ensures HandlerOk(u, UacCancellingResponse(u, r), r.rtime)
  {
  }

  lemma UacEventsOk(u: Ua, e: CCEvent, now: int)
    requires (u.st.UacTrying? || u.st.UacRinging? || u.st.UacUpdating?) && Ready(u)
    ensures HandlerOk(u, HandleEvent(u, e, now), e.rtime)
  {
    hide SetDisconnectTs, EndSetup;
  }

  // ---------------------------------------------------------------- the side that is called

  lemma UasIdleOk(u: Ua, r: Req)
    requires u.st.UasIdle? && Fresh(u) && r.verb == INVITE
    ensures Starts(u, UasIdleRequest(u, r))
  {
  }

  lemma UasRejectOk(u: Ua, e: CCEvent, code: int, body: Option<Body>, next: State, cb: Cb)
    requires CallerSide(u.st) && InRole(u.call.origin, u.st) && Ending(cb) && (next.Failed? || next.Disconnected?)
    ensures NextOk(u, UasReject(u, e, code, body, next, cb)) && Rest(CancelExpire(u), UasReject(u, e, code, body, next, cb))
    ensures UasReject(u, e, code, body, next, cb).next == Some(next)
  {
    hide SetDisconnectTs;
  }

  /** The events that end a call while it is set up. */
  lemma UasRejectsOk(u: Ua, e: CCEvent, noProgress: Ua)
    requires CallerSide(u.st) && Ready(u) && noProgress == (if u.st.UasTrying? then CancelNoProgress(u) else u)
    ensures e.kind.Disconnect? ==> HandlerOk(u, UasReject(noProgress, e, 500, None, Disconnected, DiscCb), e.rtime)
    ensures e.kind.Fail? ==> HandlerOk(u, UasFail(noProgress, e, FailCode(e.kind.code), None), e.rtime)
    ensures e.kind.Redirect? ==> HandlerOk(u, UasFail(noProgress, e, e.kind.code, e.kind.body), e.rtime)
  {
    hide UasReject;
    if e.kind.Disconnect? { UasRejectOk(noProgress, e, 500, None, Disconnected, DiscCb); }
    if e.kind.Fail? { UasRejectOk(noProgress, e, FailCode(e.kind.code), None, Failed, FailCb(FailCode(e.kind.code))); }
    if e.kind.Redirect? { UasRejectOk(noProgress, e, e.kind.code, e.kind.body, Failed, FailCb(e.kind.code)); }
  }

  lemma UasTryingNext(u: Ua, e: CCEvent)
    requires u.st.UasTrying? && Ready(u)
    ensures NextOk(u, UasTryingEvent(u, e))
  {
    hide TimersFit, AtMostOneTimer, SetConnectTs, UasFail, UasReject;
    UasRejectsOk(u, e, CancelNoProgress(u));
  }

  lemma UasTryingTimes(u: Ua, e: CCEvent)
    requires u.st.UasTrying? && Ready(u)
    ensures Times(u, UasTryingEvent(u, e), e.rtime) && Queues(u.q, UasTryingEvent(u, e).u.q)
  {
    hide SetConnectTs, UasFail, UasReject;
    UasRejectsOk(u, e, CancelNoProgress(u));
  }

  lemma UasRingingNext(u: Ua, e: CCEvent)
    requires (u.st.UasRinging? || u.st.UasRingingRel?) && Ready(u)
    ensures NextOk(u, UasRingingEvent(u, e))
  {
    hide SetConnectTs, UasFail, UasReject, TimersFit, AtMostOneTimer;
    UasRejectsOk(u, e, u);
  }

  lemma UasRingingTimes(u: Ua, e: CCEvent)
    requires (u.st.UasRinging? || u.st.UasRingingRel?) && Ready(u)
    ensures Times(u, UasRingingEvent(u, e), e.rtime) && Queues(u.q, UasRingingEvent(u, e).u.q)
  {
    hide SetConnectTs, UasFail, UasReject;
    UasRejectsOk(u, e, u);
  }

  lemma RingingRelOk(u: Ua, e: CCEvent)
    requires u.st.UasRingingRel? && Ready(u)
    ensures HandlerOk(u, RingingRelEvent(u, e), e.rtime)
  {
    hide UasRingingEvent;
    UasRingingNext(u, e);
    UasRingingTimes(u, e);
    if e.kind.Ring? {
      var u1 := SetRel(u, u.st.rel.(prackWait := e.kind.body.Some?, prackReceived := false));
      UasRingingNext(u1, e);
      UasRingingTimes(u1, e);
    }
  }

  lemma UasUpdatingNext(u: Ua, e: CCEvent)
    requires u.st.UasUpdating? && Ready(u)
    ensures NextOk(u, UasUpdatingEvent(u, e))
  {
    hide TimersFit, AtMostOneTimer, SetDisconnectTs;
  }

  lemma UasUpdatingTimes(u: Ua, e: CCEvent)
    requires u.st.UasUpdating? && Ready(u)
    ensures Times(u, UasUpdatingEvent(u, e), e.rtime) && Queues(u.q, UasUpdatingEvent(u, e).u.q)
  {
    hide SetDisconnectTs;
  }

  lemma PreConnectOk(u: Ua, e: CCEvent)
    requires u.st.UasPreConnect? && Ready(u)
    ensures HandlerOk(u, PreConnectEvent(u, e), e.rtime)
  {
    hide SetDisconnectTs;
  }

  lemma ConnectedOk(u: Ua, e: CCEvent)
    requires u.st.Connected? && Ready(u)
    ensures HandlerOk(u, ConnectedEvent(u, e), e.rtime)
  {
    hide SetConnectTs, SetDisconnectTs;
  }

  lemma UasRequestsNext(u: Ua, r: Req)
    requires CallerSide(u.st) || u.st.UasPreConnect? || u.st.UasUpdating?
    requires Ready(u)
    ensures NextOk(u, HandleRequest(u, r))
  {
    hide SetDisconnectTs;
  }

  lemma UasRequestsTimes(u: Ua, r: Req)
    requires CallerSide(u.st) || u.st.UasPreConnect? || u.st.UasUpdating?
    requires Ready(u)
    ensures Times(u, HandleRequest(u, r), r.rtime) && Queues(u.q, HandleRequest(u, r).u.q)
  {
    hide SetDisconnectTs;
  }

  lemma ConnectedRequestNext(u: Ua, r: Req)
    requires u.st.Connected? && Ready(u)
    ensures NextOk(u, ConnectedRequest(u, r))
  {
    hide SetDisconnectTs;
  }

  lemma ConnectedRequestTimes(u: Ua, r: Req)
    requires u.st.Connected? && Ready(u)
    ensures Times(u, ConnectedRequest(u, r), r.rtime) && Queues(u.q, ConnectedRequest(u, r).u.q)
  {
    hide SetDisconnectTs;
  }

  // ---------------------------------------------------------------- every handler

  lemma RequestOk(u: Ua, r: Req)
    requires Ready(u) && !u.st.NoState? && !u.st.UasIdle? && !u.st.UacIdle?
    ensures HandlerOk(u, HandleRequest(u, r), r.rtime)
  {
    hide Ready, NextOk, Times, Queues, ConnectedRequest, PreConnectRequest, UasUpdatingRequest, UasRingingRequest, UacUpdatingRequest;
    if CallerSide(u.st) || u.st.UasPreConnect? || u.st.UasUpdating? {
      UasRequestsNext(u, r);
      UasRequestsTimes(u, r);
    } else if u.st.Connected? {
      ConnectedRequestNext(u, r);
      ConnectedRequestTimes(u, r);
    } else {
      OtherRequestsOk(u, r);
    }
  }

  lemma OtherRequestsOk(u: Ua, r: Req)
    requires Ready(u) && (CalleeSide(u.st) || u.st.UacUpdating? || u.st.Disconnected? || u.st.Failed? || u.st.Dead?)
    ensures HandlerOk(u, HandleRequest(u, r), r.rtime)
  {
    hide SetDisconnectTs;
  }

  lemma ResponseOk(u: Ua, r: Resp, lastRseq: int, now: int)
    requires Ready(u) && !u.st.NoState? && !u.st.UasIdle? && !u.st.UacIdle?
    ensures HandlerOk(u, HandleResponse(u, r, lastRseq, now).r, r.rtime)
  {
    hide UacTryingResponse, UacRingingResponse, UacUpdatingResponse, UacCancellingResponse;
    match u.st
    case UacTrying => UacTryingNext(u, r, lastRseq, now); UacTryingTimes(u, r, lastRseq, now);
    case UacRinging => UacRingingOk(u, r, lastRseq, now);
    case UacUpdating => UacUpdatingNext(u, r); UacUpdatingTimes(u, r); UacUpdatingQueues(u, r);
    case UacCancelling(_) => UacCancellingOk(u, r);
    case _ =>
  }

  lemma EventOk(u: Ua, e: CCEvent, now: int)
    requires Ready(u) && !u.st.NoState? && !u.st.UasIdle? && !u.st.UacIdle?
    ensures HandlerOk(u, HandleEvent(u, e, now), e.rtime)
  {
    hide UasTryingEvent, UasRingingEvent, RingingRelEvent, PreConnectEvent, UasUpdatingEvent, ConnectedEvent,
      UacTryingEvent, UacRingingEvent, UacUpdatingEvent;
    match u.st
    case UasTrying => UasTryingNext(u, e); UasTryingTimes(u, e);
    case UasRinging => UasRingingNext(u, e); UasRingingTimes(u, e);
    case UasRingingRel(_) => RingingRelOk(u, e);
    case UasPreConnect(_, _) => PreConnectOk(u, e);
    case UasUpdating => UasUpdatingNext(u, e); UasUpdatingTimes(u, e);
    case Connected => ConnectedOk(u, e);
    case UacTrying => UacEventsOk(u, e, now);
    case UacRinging => UacEventsOk(u, e, now);
    case UacUpdating => UacEventsOk(u, e, now);
    case _ =>
  }
}
