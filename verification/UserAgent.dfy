/** The user agent as a mutable object: one handler for each input of each state, as the state classes
    have them.  Every handler is proved to do what `UaSpec` says. */
module UserAgents {
  import opened Messages
  import opened UaSpec
  import Spec = UaSpec

  /** Requests that reach no state. */
  predicate Refused(u: Ua, r: Req) {
    (u.call.rCSeq != -1 && u.call.rCSeq >= r.cseq) ||
    (u.st.NoState? && (r.verb != INVITE || (r.body.None? && r.requires100rel)))
  }

  class UserAgent {
    const cfg: Config
    var st: State
    var limits: Limits
    var timers: SetupTimers
    var q: Queue
    var stamps: Stamps
    var media: Media
    var call: Call
    /** What the agent sent, and the callbacks it called. */
    ghost var effs: seq<Eff>
    ghost var calls: seq<Cb>

    ghost function Abs(): Ua
      reads this
    {
      Ua(st, cfg, limits, timers, q, stamps, media, call)
    }

    constructor (cfg: Config, nextSeq: int)
      ensures Abs() == Spec.New(cfg, nextSeq) && effs == [] && calls == []
    {
      this.cfg, st := cfg, NoState;
      limits, timers := Limits(None, None, None), NO_TIMERS;
      q := Queue([], -1, [], nextSeq);
      stamps, media := Stamps(None, None, None, None), Media(None, None, false);
      call := Call(Nobody, false, false, Answered, -1, 100, true);
      effs, calls := [], [];
    }

    /** A handler did what `r` says and returned the next state and its callback. */
    twostate predicate Did(r: Res, new next: Option<State>, new cb: Option<Cb>)
      reads this
    {
      Abs() == r.u && next == r.next && cb == r.cb && effs == old(effs) + r.effs &&
      calls == old(calls) + Spec.Called(r.u, r.call)
    }

    twostate predicate Became(d: Done)
      reads this
    {
      Abs() == d.u && effs == old(effs) + d.effs && calls == old(calls) + d.calls
    }

    /** The same, with the emission loop at the end. */
    twostate predicate Finished(d: Done)
      reads this
    {
      Abs() == Spec.EmitAll(d.u) && effs == old(effs) + d.effs && calls == old(calls) + d.calls
    }

    // ---------------------------------------------------------------- setters

    method CancelExpireTimer()
      modifies this`timers
      ensures timers == old(timers).(expire := None)
    {
      timers := timers.(expire := None);
    }

    method CancelNoProgressTimer()
      modifies this`timers
      ensures timers == old(timers).(noProgress := None)
    {
      timers := timers.(noProgress := None);
    }

    method CancelNoReplyTimer()
      modifies this`timers
      ensures timers == old(timers).(noReply := None)
    {
      timers := timers.(noReply := None);
    }

    /** Called only where the limit is set. */
    method StartExpireTimer(start: int)
      requires limits.ex.Some?
      modifies this`timers
      ensures Abs() == Spec.StartExpire(old(Abs()), start)
    {
      var deadline := if cfg.expireStartsOnSetup then limits.ex.value else start + cfg.expireTime;
      timers := timers.(expire := Some(deadline));
    }

    method SetConnectTs(ts: int)
      modifies this`stamps
      ensures Abs() == Spec.SetConnectTs(old(Abs()), ts)
    {
      if stamps.connect.None? {
        if stamps.disconnect.Some? && ts > stamps.disconnect.value {
          stamps := stamps.(connect := stamps.disconnect);
        } else {
          stamps := stamps.(connect := Some(ts));
        }
      }
    }

    method SetDisconnectTs(ts: int)
      modifies this`stamps
      ensures Abs() == Spec.SetDisconnectTs(old(Abs()), ts)
    {
      if stamps.connect.Some? && stamps.connect.value > ts {
        stamps := stamps.(disconnect := stamps.connect);
      } else {
        stamps := stamps.(disconnect := Some(ts));
      }
    }

    method EndSetup(ts: int, now: int)
      modifies this`stamps
      ensures Abs() == Spec.EndSetup(old(Abs()), ts, now)
    {
      if stamps.setup.Some? && stamps.setup.value <= ts {
        SetDisconnectTs(ts);
      } else {
        SetDisconnectTs(now);
      }
    }

    method Enqueue(kind: Kind, rtime: int)
      modifies this`q
      ensures Abs() == Spec.Enqueue(old(Abs()), kind, rtime)
    {
      q := q.(equeue := q.equeue + [CCEvent(q.nextSeq, kind, rtime)], nextSeq := q.nextSeq + 1);
    }

    method NewEvent(kind: Kind, rtime: int) returns (e: CCEvent)
      modifies this`q
      ensures e == CCEvent(old(q).nextSeq, kind, rtime) && q == old(q).(nextSeq := old(q).nextSeq + 1)
    {
      e := CCEvent(q.nextSeq, kind, rtime);
      q := q.(nextSeq := q.nextSeq + 1);
    }

    method Send(ghost e: Eff)
      modifies this`effs
      ensures effs == old(effs) + [e]
    {
      effs := effs + [e];
    }

    method SendUasResponse(code: int, body: Option<Body>, ackWait: bool)
      modifies this`effs, this`call
      ensures effs == old(effs) + [Respond(code, body, ackWait)]
      ensures call == if code >= 200 then old(call).(open := Answered) else old(call)
    {
      Send(Respond(code, body, ackWait));
      if code >= 200 {
        call := call.(open := Answered);
      }
    }

    method CallBack(ghost cb: Cb)
      modifies this`calls
      ensures calls == old(calls) + Spec.Called(Abs(), Some(cb))
    {
      if call.hooked {
        calls := calls + [cb];
      }
    }

    // ---------------------------------------------------------------- emission

    method EmitEvent(e: CCEvent)
      modifies this`q
      ensures Abs() == Spec.Emit(old(Abs()), e)
    {
      if call.hooked {
        if q.elastSeq != -1 && q.elastSeq >= e.seqNo {
          return;
        }
        q := q.(elastSeq := e.seqNo, outbox := q.outbox + [e]);
      }
    }

    method EmitPendingEvents()
      modifies this`q
      ensures Abs() == Spec.EmitAll(old(Abs()))
    {
      while q.equeue != [] && call.hooked
        invariant Spec.EmitAll(Abs()) == Spec.EmitAll(old(Abs()))
        decreases |q.equeue|
      {
        var e := q.equeue[0];
        q := q.(equeue := q.equeue[1..]);
        EmitEvent(e);
      }
    }

    // ---------------------------------------------------------------- change of state

    method OnDeactivate()
      modifies this`timers, this`call, this`effs
      ensures Became(Spec.Deactivate(old(Abs())))
    {
      if st.Connected? {
        if call.pendingTr {
          Send(SendAck);
          call := call.(pendingTr := false);
        }
        CancelExpireTimer();
      } else if st.UasPreConnect? {
        CancelExpireTimer();
      }
    }

    method ChangeState(s: State, cb: Option<Cb>)
      modifies this
      ensures Became(Spec.ChangeState(old(Abs()), s, cb))
    {
      OnDeactivate();
      st := s;
      if s.UacCancelling? {
        st := UacCancelling(true);
      } else if s.Dead? {
        timers := NO_TIMERS;
        call := call.(hooked := false);
      }
      if cb.Some? {
        CallBack(cb.value);
      }
    }

    /** What the agent does with what a handler returned. */
    method Settle(next: Option<State>, cb: Option<Cb>, ghost r: Res, ghost before: seq<Eff>, ghost called: seq<Cb>)
      requires Abs() == r.u && next == r.next && cb == r.cb && effs == before + r.effs
      requires calls == called + Spec.Called(r.u, r.call)
      modifies this
      ensures Abs() == Spec.Settle(r).u
      ensures effs == before + Spec.Settle(r).effs && calls == called + Spec.Settle(r).calls
    {
      if next.Some? {
        ChangeState(next.value, cb);
      }
    }

    // ---------------------------------------------------------------- UacStateIdle

    method SetLimits(t: int)
      modifies this`limits
      ensures limits == old(limits).(np := Spec.ProgressLimit(cfg, t), ex := Spec.ExpireLimit(cfg, t))
    {
      limits := limits.(np := None, ex := None);
      if cfg.expireTime > 0 {
        limits := limits.(ex := Some(t + cfg.expireTime));
      }
      if cfg.noProgressTime > 0 && (cfg.expireTime <= 0 || cfg.noProgressTime < cfg.expireTime) {
        limits := limits.(np := Some(t + cfg.noProgressTime));
      }
    }

    function ReplyLimit(t: int): (limit: Option<int>)
      ensures limit == Spec.ReplyLimit(cfg, t)
    {
      if 0 < cfg.noReplyTime < 32000 && (cfg.expireTime <= 0 || cfg.noReplyTime < cfg.expireTime) &&
         (cfg.noProgressTime <= 0 || cfg.noReplyTime < cfg.noProgressTime)
      then Some(t + cfg.noReplyTime)
      else None
    }

    method StartFirstTimer(start: int)
      modifies this`timers
      ensures Abs() == Spec.StartFirstTimer(old(Abs()), start)
    {
      if limits.nr.Some? {
        timers := timers.(noReply := limits.nr);
      } else if limits.np.Some? {
        timers := timers.(noProgress := limits.np);
      } else if limits.ex.Some? {
        StartExpireTimer(start);
      }
    }

    method SetUp(t: int, body: Option<Body>)
      modifies this`stamps, this`call, this`media
      ensures stamps == old(stamps).(setup := if old(stamps).setup.Some? then old(stamps).setup else Some(t))
      ensures call == old(call).(origin := Callee)
      ensures media == old(media).(local := body, late := old(media).late || body.None?)
    {
      if stamps.setup.None? {
        stamps := stamps.(setup := Some(t));
      }
      call := call.(origin := Callee);
      if body.None? {
        media := media.(late := true);
      }
      media := media.(local := body);
    }

    method UacIdleRecvEvent(e: CCEvent, now: int) returns (next: Option<State>, cb: Option<Cb>)
      modifies this
      ensures Did(Spec.UacIdleEvent(old(Abs()), e, now), next, cb)
    {
      hide Spec.ExpireLimit, Spec.ProgressLimit, Spec.StartFirstTimer, Spec.EndSetup;
      next, cb := None, None;
      if Spec.Ends(e.kind) {
        EndSetup(e.rtime, now);
        next, cb := Some(Disconnected), Some(DiscCb);
        return;
      }
      match e.kind
      case Try(body) =>
        SetUp(e.rtime, body);
        Send(SendRequest(INVITE));
        SetLimits(e.rtime);
        limits := limits.(nr := ReplyLimit(e.rtime));
        StartFirstTimer(e.rtime);
        next := Some(UacTrying);
      case _ =>
    }

    // ---------------------------------------------------------------- UacStateTrying, UacStateRinging

    /** The timers a provisional or final response replaces. */
    method EscalateTimers(code: int, rtime: int)
      modifies this`timers
      ensures Abs() == Spec.Escalate(old(Abs()), code, rtime)
    {
      if timers.noReply.Some? {
        CancelNoReplyTimer();
        if code == 100 && limits.np.Some? {
          timers := timers.(noProgress := limits.np);
        } else if code < 200 && limits.ex.Some? {
          StartExpireTimer(rtime);
        }
      }
    }

    method EscalateTimersAgain(code: int, rtime: int)
      modifies this`timers
      ensures Abs() == Spec.EscalateAgain(old(Abs()), code, rtime)
    {
      if timers.noProgress.Some? {
        CancelNoProgressTimer();
        if code < 200 && limits.ex.Some? {
          StartExpireTimer(rtime);
        }
      }
    }

    /** `CheckRSeq` of the transaction, and the PRACK. */
    method CheckRSeq(r: Resp, lastRseq: int) returns (ok: bool, newLast: int)
      modifies this`effs
      ensures ok == Spec.RSeqOk(r, lastRseq) && newLast == if ok then Spec.NewLastRseq(r, lastRseq) else lastRseq
      ensures effs == if ok then old(effs) + Spec.Pracks(r) else old(effs)
    {
      ok, newLast := true, lastRseq;
      if r.m.rseq.Some? {
        if lastRseq != 0 && lastRseq + 1 != r.m.rseq.value {
          ok := false;
          return;
        }
        newLast := r.m.rseq.value;
        Send(SendPrack(r.m.rseq.value));
      }
    }

    method SetupFailed(kind: Kind, r: Resp, now: int)
      modifies this`q, this`stamps
      ensures Abs() == Spec.EndSetup(Spec.Enqueue(old(Abs()), kind, r.rtime), r.rtime, now)
    {
      Enqueue(kind, r.rtime);
      EndSetup(r.rtime, now);
    }

    /** A final response; the code that is reported for a 2xx without a tag differs between the states. */
    method RecvFinal(r: Resp, taglessCode: int, now: int) returns (next: Option<State>, cb: Option<Cb>)
      requires r.m.code >= 200
      modifies this
      ensures Did(Spec.UacFinal(old(Abs()), r, [], taglessCode, now), next, cb)
    {
      hide Spec.EndSetup, Spec.SetConnectTs;
      if r.m.code < 300 {
        if r.m.toTag == EMPTY {
          Send(SendRequest(BYE));
          SetupFailed(Fail(502), r, now);
          next, cb := Some(Failed), Some(FailCb(taglessCode));
        } else if !media.late || r.m.body.None? {
          media := media.(late := false);
          SetConnectTs(r.rtime);
          media := media.(remote := r.m.body);
          Enqueue(Connect(r.m.code, r.m.body), r.rtime);
          next, cb := Some(Connected), Some(ConnCb);
        } else {
          call := call.(pendingTr := true);
          media := media.(remote := r.m.body);
          Enqueue(PreConnect(r.m.code, r.m.body), r.rtime);
          next, cb := Some(Connected), None;
        }
      } else {
        SetupFailed(Spec.RedirectOrFail(r), r, now);
        next, cb := Some(Failed), Some(FailCb(r.m.code));
      }
    }

    method UacTryingRecvResponse(r: Resp, lastRseq: int, now: int)
      returns (next: Option<State>, cb: Option<Cb>, newLast: int)
      modifies this
      ensures Did(Spec.UacTryingResponse(old(Abs()), r, lastRseq, now).r, next, cb)
      ensures newLast == Spec.UacTryingResponse(old(Abs()), r, lastRseq, now).lastRseq
    {
      hide Spec.Escalate, Spec.EscalateAgain;
      var ok: bool;
      next, cb, newLast := None, None, lastRseq;
      call := call.(lastScode := r.m.code);
      EscalateTimers(r.m.code, r.rtime);
      if r.m.code == 100 {
        Enqueue(Ring(100, r.m.body), r.rtime);
        return;
      }
      EscalateTimersAgain(r.m.code, r.rtime);
      ok, newLast := CheckRSeq(r, lastRseq);
      if !ok { return; }
      if r.m.code < 200 {
        media := media.(remote := r.m.body);
        Enqueue(Ring(r.m.code, r.m.body), r.rtime);
        stamps := stamps.(p1xx := Some(r.rtime));
        next, cb := Some(UacRinging), Some(RingCb(r.m.code));
      } else {
        CancelExpireTimer();
        next, cb := RecvFinal(r, r.m.code, now);
      }
    }

    method UacRingingRecvResponse(r: Resp, lastRseq: int, now: int)
      returns (next: Option<State>, cb: Option<Cb>, newLast: int)
      modifies this
      ensures Did(Spec.UacRingingResponse(old(Abs()), r, lastRseq, now).r, next, cb)
      ensures newLast == Spec.UacRingingResponse(old(Abs()), r, lastRseq, now).lastRseq
    {
      var ok: bool;
      next, cb, newLast := None, None, lastRseq;
      if r.m.code > 180 {
        call := call.(lastScode := r.m.code);
      }
      if r.m.code < 200 {
        ok, newLast := CheckRSeq(r, lastRseq);
        if !ok { return; }
        if stamps.p1xx.None? {
          stamps := stamps.(p1xx := Some(r.rtime));
        }
        CallBack(RingCb(r.m.code));
        media := media.(remote := r.m.body);
        Enqueue(Ring(r.m.code, r.m.body), r.rtime);
      } else {
        CancelExpireTimer();
        next, cb := RecvFinal(r, 502, now);
      }
    }

    method UacTryingRecvEvent(e: CCEvent, now: int) returns (next: Option<State>, cb: Option<Cb>)
      modifies this
      ensures Did(Spec.UacTryingEvent(old(Abs()), e, now), next, cb)
    {
      next, cb := None, None;
      if Spec.Ends(e.kind) {
        Send(CancelCall);
        CancelExpireTimer();
        CancelNoProgressTimer();
        CancelNoReplyTimer();
        EndSetup(e.rtime, now);
        next, cb := Some(UacCancelling(false)), Some(DiscCb);
      }
    }

    method UacRingingRecvEvent(e: CCEvent, now: int) returns (next: Option<State>, cb: Option<Cb>)
      modifies this
      ensures Did(Spec.UacRingingEvent(old(Abs()), e, now), next, cb)
    {
      next, cb := None, None;
      if Spec.Ends(e.kind) {
        Send(CancelCall);
        CancelExpireTimer();
        EndSetup(e.rtime, now);
        next, cb := Some(UacCancelling(false)), Some(DiscCb);
      }
    }

    method UacCancellingRecvResponse(r: Resp) returns (next: Option<State>, cb: Option<Cb>)
      requires st.UacCancelling?
      modifies this
      ensures Did(Spec.UacCancellingResponse(old(Abs()), r), next, cb)
    {
      next, cb := None, None;
      if r.m.code < 200 { return; }
      st := UacCancelling(false);
      if r.m.code < 300 {
        Send(SendRequest(BYE));
        next := Some(Disconnected);
      } else {
        next := Some(Dead);
      }
    }

    // ---------------------------------------------------------------- UaStateConnected

    method HangUp(ts: int) returns (next: Option<State>, cb: Option<Cb>)
      modifies this`stamps
      ensures Abs() == Spec.SetDisconnectTs(old(Abs()), ts) && next == Some(Disconnected) && cb == Some(DiscCb)
    {
      SetDisconnectTs(ts);
      next, cb := Some(Disconnected), Some(DiscCb);
    }

    method ConnectedRecvRequest(r: Req) returns (next: Option<State>, cb: Option<Cb>)
      modifies this
      ensures Did(Spec.ConnectedRequest(old(Abs()), r), next, cb)
    {
      hide Spec.SetDisconnectTs, Spec.ConnectedEvent;
      next, cb := None, None;
      match r.verb
      case REFER =>
        if !r.referTo {
          Send(RespondOwn(400));
          return;
        }
        Send(RespondOwn(202));
        Enqueue(Disconnect(true), r.rtime);
        var own := NewEvent(Disconnect(false), r.rtime);
        next, cb := ConnectedRecvEvent(own);
      case INVITE =>
        Send(RespondOwn(100));
        if r.body.Some? && media.remote == r.body {
          Send(RespondOwn(200));
          return;
        }
        call := call.(open := ReInvite);
        media := media.(remote := r.body);
        Enqueue(Update(r.body, r.maxForwards), r.rtime);
        next := Some(UasUpdating);
      case BYE =>
        Send(RespondOwn(200));
        Enqueue(Disconnect(r.also), r.rtime);
        next, cb := HangUp(r.rtime);
      case INFO =>
        Send(RespondOwn(200));
        Enqueue(Info(r.body), r.rtime);
      case OPTIONS =>
        Send(RespondOwn(200));
      case UPDATE =>
        Send(RespondOwn(200));
      case _ =>
    }

    method ConnectedRecvEvent(e: CCEvent) returns (next: Option<State>, cb: Option<Cb>)
      modifies this
      ensures Did(Spec.ConnectedEvent(old(Abs()), e), next, cb)
    {
      hide Spec.SetDisconnectTs, Spec.SetConnectTs;
      next, cb := None, None;
      if Spec.Ends(e.kind) {
        Send(SendRequest(Spec.ByeOrRefer(Abs(), e.kind)));
        next, cb := HangUp(e.rtime);
        return;
      }
      match e.kind
      case Update(body, maxForwards) =>
        if body.Some? && media.local == body {
          Enqueue(Connect(200, media.remote), e.rtime);
          return;
        }
        if body.None? {
          media := media.(late := true);
        }
        if maxForwards.Some? && maxForwards.value <= 0 {
          Enqueue(Fail(483), e.rtime);
          return;
        }
        media := media.(local := body);
        Send(SendRequest(INVITE));
        next := Some(UacUpdating);
      case Info(_) =>
        Send(SendRequest(INFO));
      case Connect(_, body) =>
        if call.pendingTr {
          CancelExpireTimer();
          SetConnectTs(e.rtime);
          media := media.(local := body);
          Send(SendAck);
          call := call.(pendingTr := false);
          CallBack(ConnCb);
        }
      case _ =>
    }

    // ---------------------------------------------------------------- UacStateUpdating

    method UacUpdatingRecvRequest(r: Req) returns (next: Option<State>, cb: Option<Cb>)
      modifies this
      ensures Did(Spec.UacUpdatingRequest(old(Abs()), r), next, cb)
    {
      next, cb := None, None;
      if r.verb == INVITE {
        Send(RespondOwn(491));
      } else if r.verb == BYE {
        Send(CancelCall);
        Send(RespondOwn(200));
        Enqueue(Disconnect(false), r.rtime);
        next, cb := HangUp(r.rtime);
      }
    }

    method UacUpdatingRecvResponse(r: Resp) returns (next: Option<State>, cb: Option<Cb>)
      modifies this
      ensures Did(Spec.UacUpdatingResponse(old(Abs()), r).r, next, cb)
    {
      hide Spec.SetDisconnectTs;
      next, cb := None, None;
      var code := r.m.code;
      if code < 200 {
        Enqueue(Ring(code, r.m.body), r.rtime);
        return;
      }
      if code < 300 {
        var kind := Connect(code, r.m.body);
        if media.late && r.m.body.Some? {
          kind := PreConnect(code, r.m.body);
          call := call.(pendingTr := true);
        }
        media := media.(remote := r.m.body);
        Enqueue(kind, r.rtime);
        next := Some(Connected);
        return;
      }
      var kind := Spec.RedirectOrFail(r);
      if kind.Fail? {
        media := media.(local := None);
      }
      Enqueue(kind, r.rtime);
      if code == 408 || code == 481 {
        Send(SendRequest(BYE));
        Enqueue(Disconnect(false), r.rtime);
        next, cb := HangUp(r.rtime);
      } else {
        next := Some(Connected);
      }
    }

    method UacUpdatingRecvEvent(e: CCEvent) returns (next: Option<State>, cb: Option<Cb>)
      modifies this
      ensures Did(Spec.UacUpdatingEvent(old(Abs()), e), next, cb)
    {
      next, cb := None, None;
      if Spec.Ends(e.kind) {
        Send(CancelCall);
        Send(SendRequest(BYE));
        next, cb := HangUp(e.rtime);
      }
    }
  
    // ---------------------------------------------------------------- UasStateIdle, UasStateTrying

    method UasIdleRecvRequest(r: Req) returns (next: Option<State>, cb: Option<Cb>)
      modifies this
      ensures Did(Spec.UasIdleRequest(old(Abs()), r), next, cb)
    {
      next, cb := None, None;
      if r.verb != INVITE { return; }
      call := call.(origin := Caller, open := FirstInvite);
      Send(RespondOwn(100));
      SetLimits(r.rtime);
      if limits.np.Some? {
        timers := timers.(noProgress := limits.np);
      } else if limits.ex.Some? {
        StartExpireTimer(r.rtime);
      }
      media := media.(remote := r.body);
      Enqueue(Try(r.body), r.rtime);
      stamps := stamps.(setup := Some(r.rtime));
      next := Some(UasTrying);
    }

    method UasTryingRecvEvent(e: CCEvent) returns (next: Option<State>, cb: Option<Cb>)
      modifies this
      ensures Did(Spec.UasTryingEvent(old(Abs()), e), next, cb)
    {
      hide Spec.SetDisconnectTs, Spec.SetConnectTs, Spec.UasReject;
      next, cb := None, None;
      if Spec.Ends(e.kind) {
        CancelNoProgressTimer();
        next, cb := UasReject(e);
        return;
      }
      match e.kind
      case Ring(scode, sbody) =>
        var code, body := if scode == 0 then 180 else scode, if scode == 0 then None else sbody;
        if code == 100 { return; }
        media := media.(local := body);
        SendUasResponse(code, body, false);
        if timers.noProgress.Some? {
          CancelNoProgressTimer();
          if limits.ex.Some? {
            StartExpireTimer(e.rtime);
          }
        }
        if stamps.p1xx.None? {
          stamps := stamps.(p1xx := Some(e.rtime));
        }
        next := Some(if call.prRel then UasRingingRel(NEW_REL.(prackWait := media.local.Some?)) else UasRinging);
        cb := Some(RingCb(code));
      case PreConnect(code, body) =>
        media := media.(local := body);
        CancelNoProgressTimer();
        SendUasResponse(code, body, true);
        next := Some(UasPreConnect(true, None));
      case Connect(code, body) =>
        media := media.(local := body);
        SendUasResponse(code, body, true);
        CancelExpireTimer();
        CancelNoProgressTimer();
        SetConnectTs(e.rtime);
        next, cb := Some(UasPreConnect(false, None)), Some(ConnCb);
      case _ =>
    }

    method UasReject(e: CCEvent) returns (next: Option<State>, cb: Option<Cb>)
      requires Spec.Ends(e.kind)
      modifies this`timers, this`stamps, this`call, this`effs
      ensures e.kind.Redirect? ==> Did(Spec.UasFail(old(Abs()), e, e.kind.code, e.kind.body), next, cb)
      ensures e.kind.Fail? ==> Did(Spec.UasFail(old(Abs()), e, Spec.FailCode(e.kind.code), None), next, cb)
      ensures e.kind.Disconnect? ==> Did(Spec.UasReject(old(Abs()), e, 500, None, Disconnected, DiscCb), next, cb)
    {
      hide Spec.SetDisconnectTs;
      match e.kind {
        case Redirect(code, body) =>
          SendUasResponse(code, body, false);
          next, cb := Some(Failed), Some(FailCb(code));
        case Fail(scode) =>
          var code := if scode == 0 then 500 else scode;
          SendUasResponse(code, None, false);
          next, cb := Some(Failed), Some(FailCb(code));
        case Disconnect(_) =>
          SendUasResponse(500, None, false);
          next, cb := Some(Disconnected), Some(DiscCb);
      }
      CancelExpireTimer();
      SetDisconnectTs(e.rtime);
    }

    // ---------------------------------------------------------------- UasStateRinging, UasStateRingingRel

    method UasRingingRecvEvent(e: CCEvent) returns (next: Option<State>, cb: Option<Cb>)
      modifies this
      ensures Did(Spec.UasRingingEvent(old(Abs()), e), next, cb)
    {
      hide Spec.SetDisconnectTs, Spec.SetConnectTs, Spec.UasReject;
      next, cb := None, None;
      if Spec.Ends(e.kind) {
        next, cb := UasReject(e);
        return;
      }
      match e.kind
      case Ring(scode, sbody) =>
        var code, body := if scode == 0 then 180 else scode, if scode == 0 then None else sbody;
        if code == 100 { return; }
        media := media.(local := body);
        if stamps.p1xx.None? {
          stamps := stamps.(p1xx := Some(e.rtime));
        }
        SendUasResponse(code, body, false);
        CallBack(RingCb(code));
      case Connect(code, body) =>
        media := media.(local := body);
        SendUasResponse(code, body, true);
        CancelExpireTimer();
        SetConnectTs(e.rtime);
        next, cb := Some(UasPreConnect(false, None)), Some(ConnCb);
      case PreConnect(code, body) =>
        media := media.(local := body);
        SendUasResponse(code, body, true);
        next := Some(UasPreConnect(true, None));
      case _ =>
    }

    method UasRingingRecvRequest(r: Req) returns (next: Option<State>, cb: Option<Cb>)
      modifies this
      ensures Did(Spec.UasRingingRequest(old(Abs()), r), next, cb)
    {
      hide Spec.SetDisconnectTs;
      next, cb := None, None;
      if r.verb == BYE {
        Send(RespondOwn(487));
        Enqueue(Disconnect(r.also), r.rtime);
        CancelExpireTimer();
        next, cb := HangUp(r.rtime);
      }
    }

    method RingingRelRecvEvent(e: CCEvent) returns (next: Option<State>, cb: Option<Cb>)
      requires st.UasRingingRel?
      modifies this
      ensures Did(Spec.RingingRelEvent(old(Abs()), e), next, cb)
    {
      hide Spec.UasRingingEvent;
      next, cb := None, None;
      match e.kind {
        case Ring(code, body) =>
          if !st.rel.prackReceived {
            if code > 100 {
              st := UasRingingRel(st.rel.(ring := Some(e)));
            }
            return;
          }
          st := UasRingingRel(st.rel.(prackWait := body.Some?, prackReceived := false));
        case Connect(_, _) =>
          if st.rel.prackWait && !st.rel.prackReceived {
            st := UasRingingRel(st.rel.(connect := Some(e)));
            return;
          }
        case Update(_, _) =>
          st := UasRingingRel(st.rel.(update := Some(e)));
          return;
        case _ =>
      }
      next, cb := UasRingingRecvEvent(e);
    }

    // ---------------------------------------------------------------- UasStatePreConnect, UasStateUpdating

    method PreConnectRecvRequest(r: Req) returns (next: Option<State>, cb: Option<Cb>)
      modifies this
      ensures Did(Spec.PreConnectRequest(old(Abs()), r), next, cb)
    {
      next, cb := UasUpdatingOrPreConnect(r, 200);
    }

    method UasUpdatingRecvRequest(r: Req) returns (next: Option<State>, cb: Option<Cb>)
      modifies this
      ensures Did(Spec.UasUpdatingRequest(old(Abs()), r), next, cb)
    {
      next, cb := UasUpdatingOrPreConnect(r, 487);
    }

    /** The two states differ in the answer to a BYE. */
    method UasUpdatingOrPreConnect(r: Req, byeCode: int) returns (next: Option<State>, cb: Option<Cb>)
      modifies this
      ensures byeCode == 200 ==> Did(Spec.PreConnectRequest(old(Abs()), r), next, cb)
      ensures byeCode == 487 ==> Did(Spec.UasUpdatingRequest(old(Abs()), r), next, cb)
    {
      hide Spec.SetDisconnectTs;
      next, cb := None, None;
      if r.verb == INVITE {
        Send(RespondOwn(491));
      } else if r.verb == BYE {
        Send(RespondOwn(byeCode));
        Enqueue(Disconnect(false), r.rtime);
        next, cb := HangUp(r.rtime);
      } else if r.verb == REFER {
        if !r.referTo {
          Send(RespondOwn(400));
          return;
        }
        Send(RespondOwn(487));
        Enqueue(Disconnect(true), r.rtime);
        next, cb := HangUp(r.rtime);
      }
    }

    method PreConnectRecvEvent(e: CCEvent) returns (next: Option<State>, cb: Option<Cb>)
      requires st.UasPreConnect?
      modifies this
      ensures Did(Spec.PreConnectEvent(old(Abs()), e), next, cb)
    {
      next, cb := None, None;
      if e.kind.Update? {
        st := st.(pendingUpdate := Some(e));
      } else if e.kind.Info? {
        Send(SendRequest(INFO));
      } else if Spec.Ends(e.kind) {
        Send(SendRequest(Spec.ByeOrRefer(Abs(), e.kind)));
        next, cb := HangUp(e.rtime);
      }
    }

    method UasUpdatingRecvEvent(e: CCEvent) returns (next: Option<State>, cb: Option<Cb>)
      modifies this
      ensures Did(Spec.UasUpdatingEvent(old(Abs()), e), next, cb)
    {
      hide Spec.SetDisconnectTs;
      next, cb := None, None;
      match e.kind
      case Ring(scode, sbody) =>
        var code, body := if scode == 0 then 180 else scode, if scode == 0 then None else sbody;
        media := media.(local := body);
        SendUasResponse(code, body, false);
      case PreConnect(code, body) =>
        media := media.(local := body);
        SendUasResponse(code, body, true);
        next := Some(UasPreConnect(true, None));
      case Connect(code, body) =>
        media := media.(local := body);
        SendUasResponse(code, body, true);
        next := Some(UasPreConnect(false, None));
      case Redirect(code, body) =>
        SendUasResponse(code, body, true);
        next := Some(UasPreConnect(false, None));
      case Fail(scode) =>
        var code := if scode == 0 then 500 else scode;
        media := media.(remote := None);
        SendUasResponse(code, None, true);
        next := Some(UasPreConnect(false, None));
      case Disconnect(_) =>
        SendUasResponse(487, None, false);
        Send(SendRequest(BYE));
        next, cb := HangUp(e.rtime);
      case _ =>
    }

    method DisconnectedRecvRequest(r: Req) returns (next: Option<State>, cb: Option<Cb>)
      modifies this
      ensures Did(Spec.DisconnectedRequest(old(Abs()), r), next, cb)
    {
      next, cb := None, None;
      if r.verb == BYE {
        Send(RespondOwn(200));
      } else {
        Send(RespondOwn(500));
      }
    }
  
    // ---------------------------------------------------------------- inputs

    method HandleRequest(r: Req) returns (next: Option<State>, cb: Option<Cb>)
      modifies this
      ensures Did(Spec.HandleRequest(old(Abs()), r), next, cb)
    {
      hide Spec.UasIdleRequest, Spec.UasRingingRequest, Spec.PreConnectRequest, Spec.UasUpdatingRequest,
        Spec.UacUpdatingRequest, Spec.ConnectedRequest, Spec.DisconnectedRequest;
      next, cb := None, None;
      match st
      case UasIdle => next, cb := UasIdleRecvRequest(r);
      case UasRinging => next, cb := UasRingingRecvRequest(r);
      case UasRingingRel(_) => next, cb := UasRingingRecvRequest(r);
      case UasPreConnect(_, _) => next, cb := PreConnectRecvRequest(r);
      case UasUpdating => next, cb := UasUpdatingRecvRequest(r);
      case UacUpdating => next, cb := UacUpdatingRecvRequest(r);
      case Connected => next, cb := ConnectedRecvRequest(r);
      case Disconnected => next, cb := DisconnectedRecvRequest(r);
      case _ =>
    }

    method RecvRequest(r: Req)
      modifies this
      ensures Refused(old(Abs()), r) ==> Became(Spec.RecvRequest(old(Abs()), r))
      ensures !Refused(old(Abs()), r) ==> Finished(Spec.RecvRequest(old(Abs()), r))
    {
      ghost var u0 := Abs();
      ghost var effs0, calls0 := effs, calls;
      hide Spec.HandleRequest, Spec.Settle, Spec.EmitAll;
      if call.rCSeq != -1 && call.rCSeq >= r.cseq {
        Send(RespondOwn(500));
        return;
      }
      call := call.(rCSeq := r.cseq);
      if st.NoState? {
        if r.verb != INVITE { return; }
        if r.body.None? {
          if r.requires100rel {
            Send(RespondOwn(420));
            return;
          }
          call := call.(prRel := false);
        } else {
          call := call.(prRel := r.requires100rel || r.supports100rel);
        }
        st := UasIdle;
      }
      ghost var u1 := Abs();
      var next, cb := HandleRequest(r);
      Settle(next, cb, Spec.HandleRequest(u1, r), effs0, calls0);
      EmitPendingEvents();
    }
  
    method HandleResponse(r: Resp, lastRseq: int, now: int)
      returns (next: Option<State>, cb: Option<Cb>, newLast: int)
      modifies this
      ensures Did(Spec.HandleResponse(old(Abs()), r, lastRseq, now).r, next, cb)
      ensures newLast == Spec.HandleResponse(old(Abs()), r, lastRseq, now).lastRseq
    {
      hide Spec.UacTryingResponse, Spec.UacRingingResponse, Spec.UacUpdatingResponse, Spec.UacCancellingResponse;
      next, cb, newLast := None, None, lastRseq;
      match st
      case UacTrying => next, cb, newLast := UacTryingRecvResponse(r, lastRseq, now);
      case UacRinging => next, cb, newLast := UacRingingRecvResponse(r, lastRseq, now);
      case UacUpdating => next, cb := UacUpdatingRecvResponse(r);
      case UacCancelling(_) => next, cb := UacCancellingRecvResponse(r);
      case _ =>
    }

    method RecvResponse(r: Resp, lastRseq: int, now: int) returns (newLast: int)
      modifies this
      ensures old(st).NoState? ==> Abs() == old(Abs()) && effs == old(effs) && calls == old(calls)
      ensures !old(st).NoState? ==> Finished(Spec.RecvResponse(old(Abs()), r, lastRseq, now))
      ensures newLast == Spec.HandleResponse(old(Abs()), r, lastRseq, now).lastRseq
    {
      newLast := lastRseq;
      if st.NoState? { return; }
      hide Spec.HandleResponse, Spec.Settle, Spec.EmitAll;
      var next, cb;
      next, cb, newLast := HandleResponse(r, lastRseq, now);
      Settle(next, cb, Spec.HandleResponse(old(Abs()), r, lastRseq, now).r, old(effs), old(calls));
      EmitPendingEvents();
    }

    method HandleEvent(e: CCEvent, now: int) returns (next: Option<State>, cb: Option<Cb>)
      modifies this
      ensures Did(Spec.HandleEvent(old(Abs()), e, now), next, cb)
    {
      hide Spec.UasTryingEvent, Spec.UasRingingEvent, Spec.RingingRelEvent, Spec.PreConnectEvent, Spec.UasUpdatingEvent,
        Spec.UacIdleEvent, Spec.UacTryingEvent, Spec.UacRingingEvent, Spec.UacUpdatingEvent, Spec.ConnectedEvent;
      next, cb := None, None;
      match st
      case UasTrying => next, cb := UasTryingRecvEvent(e);
      case UasRinging => next, cb := UasRingingRecvEvent(e);
      case UasRingingRel(_) => next, cb := RingingRelRecvEvent(e);
      case UasPreConnect(_, _) => next, cb := PreConnectRecvEvent(e);
      case UasUpdating => next, cb := UasUpdatingRecvEvent(e);
      case UacIdle => next, cb := UacIdleRecvEvent(e, now);
      case UacTrying => next, cb := UacTryingRecvEvent(e, now);
      case UacRinging => next, cb := UacRingingRecvEvent(e, now);
      case UacUpdating => next, cb := UacUpdatingRecvEvent(e);
      case Connected => next, cb := ConnectedRecvEvent(e);
      case _ =>
    }

    /** An event up to the emission loop. */
    method DispatchEvent(e: CCEvent, now: int) returns (taken: bool)
      modifies this
      ensures Became(Spec.RecvEvent(old(Abs()), e, now))
      ensures !taken ==> old(st).NoState? && Abs() == old(Abs())
    {
      hide Spec.HandleEvent, Spec.Settle;
      taken := true;
      if st.NoState? {
        if !e.kind.Try? && !e.kind.Fail? && !e.kind.Disconnect? { return false; }
        st := UacIdle;
      }
      ghost var u1 := Abs();
      var next, cb := HandleEvent(e, now);
      Settle(next, cb, Spec.HandleEvent(u1, e, now), old(effs), old(calls));
    }

    method RecvEvent(e: CCEvent, now: int)
      modifies this
      ensures old(st).NoState? && !e.kind.Try? && !e.kind.Fail? && !e.kind.Disconnect? ==>
        Became(Spec.RecvEvent(old(Abs()), e, now))
      ensures !old(st).NoState? || e.kind.Try? || e.kind.Fail? || e.kind.Disconnect? ==>
        Finished(Spec.RecvEvent(old(Abs()), e, now))
    {
      if st.NoState? && !e.kind.Try? && !e.kind.Fail? && !e.kind.Disconnect? { return; }
      hide Spec.EmitAll, Spec.RecvEvent;
      FinishEvent(e, now);
    }

    method FinishEvent(e: CCEvent, now: int)
      modifies this
      ensures Finished(Spec.RecvEvent(old(Abs()), e, now))
    {
      hide Spec.EmitAll, Spec.RecvEvent;
      var _ := DispatchEvent(e, now);
      EmitPendingEvents();
    }

    method DisconnectCall(now: int)
      modifies this
      ensures !old(call.hooked) ==> Abs() == old(Abs()) && effs == old(effs) && calls == old(calls)
      ensures old(call.hooked) ==> Finished(Spec.Hangup(old(Abs()), now))
    {
      hide Spec.EmitAll, Spec.RecvEvent;
      if !call.hooked { return; }
      Enqueue(Disconnect(false), now);
      var own := NewEvent(Disconnect(false), now);
      FinishEvent(own, now);
    }

    method RecvCancel(now: int)
      modifies this
      ensures Became(Spec.RecvCancel(old(Abs()), now))
    {
      hide Spec.ChangeState, Spec.Emit, Spec.SetDisconnectTs;
      var e := NewEvent(Disconnect(false), now);
      if call.open == ReInvite && call.hooked {
        Send(SendRequest(BYE));
      }
      call := call.(open := Answered);
      SetDisconnectTs(now);
      ChangeState(Disconnected, Some(DiscCb));
      EmitEvent(e);
    }

    method ConfirmConnect(body: Option<Body>, rtime: int)
      modifies this
      ensures Became(Spec.ConfirmConnect(old(Abs()), body, rtime))
    {
      hide Spec.ChangeState, Spec.Emit, Spec.SetConnectTs;
      var e := NewEvent(Connect(0, body), rtime);
      CancelExpireTimer();
      SetConnectTs(rtime);
      CallBack(ConnCb);
      media := media.(remote := body);
      ChangeState(Connected, Some(ConnCb));
      EmitEvent(e);
    }

    /** The update that waited, after what `d` says was done. */
    method HandlePending(update: Option<CCEvent>, now: int, ghost d: Done, ghost before: seq<Eff>, ghost called: seq<Cb>)
      requires Abs() == d.u && effs == before + d.effs && calls == called + d.calls
      modifies this
      ensures var d1 := if update.Some? then Spec.Then(d, Spec.RecvEvent(d.u, update.value, now)) else d;
              Abs() == d1.u && effs == before + d1.effs && calls == called + d1.calls
    {
      hide Spec.RecvEvent;
      if update.Some? {
        var _ := DispatchEvent(update.value, now);
      }
    }

    method RecvAck(body: Option<Body>, rtime: int, now: int)
      modifies this
      ensures !old(st).UasPreConnect? ==> Abs() == old(Abs()) && effs == old(effs) && calls == old(calls)
      ensures old(st).UasPreConnect? ==> Finished(Spec.RecvAck(old(Abs()), body, rtime, now))
    {
      if !st.UasPreConnect? { return; }
      var pending := st.pendingUpdate;
      ghost var d := if st.confirm then Spec.ConfirmConnect(Abs(), body, rtime) else Spec.ChangeState(Abs(), Connected, None);
      hide Spec.ChangeState, Spec.EmitAll, Spec.ConfirmConnect, Spec.RecvEvent;
      if st.confirm {
        ConfirmConnect(body, rtime);
      } else {
        ChangeState(Connected, None);
      }
      HandlePending(pending, now, d, old(effs), old(calls));
      EmitPendingEvents();
    }

    method RecvPrack(body: Option<Body>, now: int)
      modifies this
      ensures Became(Spec.RecvPrack(old(Abs()), body, now))
    {
      if !st.UasRingingRel? { return; }
      var update := st.rel.update;
      hide Spec.Release, Spec.RecvEvent, Spec.Forget;
      ReleasePending();
      HandlePending(update, now, Spec.Release(old(Abs())), old(effs), old(calls));
      ForgetPending(body);
    }

    method ForgetPending(body: Option<Body>)
      modifies this`st, this`media
      ensures Abs() == Spec.Forget(old(Abs()), body)
    {
      if st.UasRingingRel? {
        st := UasRingingRel(st.rel.(ring := None, connect := None, update := None));
      }
      if body.Some? {
        media := media.(remote := body);
      }
    }

    method ReleasePending()
      requires st.UasRingingRel?
      modifies this
      ensures Became(Spec.Release(old(Abs())))
    {
      var connect, ring := st.rel.connect, st.rel.ring;
      st := UasRingingRel(st.rel.(prackReceived := true));
      ghost var u0 := Abs();
      hide Spec.RingingRelEvent, Spec.Settle;
      if connect.Some? {
        var next, cb := RingingRelRecvEvent(connect.value);
        Settle(next, cb, Spec.RingingRelEvent(u0, connect.value), old(effs), old(calls));
      } else if ring.Some? {
        var next, cb := RingingRelRecvEvent(ring.value);
        Settle(next, cb, Spec.RingingRelEvent(u0, ring.value), old(effs), old(calls));
      }
    }

    method SetupTimerExpires(which: SetupTimer, now: int)
      requires call.hooked
      modifies this
      ensures Finished(Spec.SetupTimerFires(old(Abs()), which, now))
    {
      match which {
        case NoReply => CancelNoReplyTimer();
        case NoProgress => CancelNoProgressTimer();
        case Expire => CancelExpireTimer();
      }
      hide Spec.Hangup, Spec.EmitAll;
      DisconnectCall(now);
    }

    method GoDead()
      modifies this
      ensures Became(Spec.GoDead(old(Abs())))
    {
      ChangeState(Dead, None);
    }
  }
}
