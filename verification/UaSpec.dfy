/** The user agent: what every handler of every state does to it.  A handler is given the agent and
    its input and returns the agent, the next state if there is one, what it sent or called, and
    what the change of state calls afterwards. */
module UaSpec {
  import opened Messages

  /** Controller events.  A redirect always carries an address; a disconnect may carry one. */
  datatype Kind =
    | Try(body: Option<Body>)
    | Ring(code: int, body: Option<Body>)
    | PreConnect(code: int, body: Option<Body>)
    | Connect(code: int, body: Option<Body>)
    | Redirect(code: int, body: Option<Body>)
    | Fail(code: int)
    | Disconnect(redirect: bool)
    | Update(body: Option<Body>, maxForwards: Option<int>)
    | Info(body: Option<Body>)

  datatype CCEvent = CCEvent(seqNo: int, kind: Kind, rtime: int)

  datatype Req = Req(verb: Method, cseq: int, body: Option<Body>, maxForwards: Option<int>,
                     referTo: bool, also: bool, requires100rel: bool, supports100rel: bool, rtime: int)

  datatype Resp = Resp(m: Response, contacts: nat, rtime: int)

  datatype Eff =
    | Respond(code: int, body: Option<Body>, ackWait: bool)  // on the INVITE being answered
    | RespondOwn(code: int)                                  // on the request being handled
    | SendRequest(verb: Method)
    | SendPrack(rseq: int)
    | CancelCall
    | SendAck

  /** Callbacks of the application. */
  datatype Cb = DiscCb | FailCb(code: int) | ConnCb | RingCb(code: int)

  /** Fields of the state that holds provisional responses back until their PRACK. */
  datatype Rel = Rel(prackReceived: bool, prackWait: bool, ring: Option<CCEvent>, connect: Option<CCEvent>,
                     update: Option<CCEvent>)

  datatype State =
    | NoState
    | UasIdle | UasTrying | UasRinging | UasRingingRel(rel: Rel)
    | UasPreConnect(confirm: bool, pendingUpdate: Option<CCEvent>) | UasUpdating
    | UacIdle | UacTrying | UacRinging | UacUpdating | UacCancelling(te: bool)
    | Connected | Disconnected | Failed | Dead

  datatype Config = Config(expireTime: int, noProgressTime: int, noReplyTime: int, expireStartsOnSetup: bool,
                           useRefer: bool)

  /** `_nr_mtime`, `_np_mtime`, `_ex_mtime`, and the deadlines of the three setup timers. */
  datatype Limits = Limits(nr: Option<int>, np: Option<int>, ex: Option<int>)

  datatype SetupTimers = SetupTimers(noReply: Option<int>, noProgress: Option<int>, expire: Option<int>)

  const NO_TIMERS: SetupTimers := SetupTimers(None, None, None)

  /** Events not handed to the controller yet, the number of the last one that was, the events the
      controller has been handed and has not acted upon, and the counter all agents share. */
  datatype Queue = Queue(equeue: seq<CCEvent>, elastSeq: int, outbox: seq<CCEvent>, nextSeq: int)

  datatype Stamps = Stamps(setup: Option<int>, connect: Option<int>, disconnect: Option<int>, p1xx: Option<int>)

  datatype Media = Media(local: Option<Body>, remote: Option<Body>, late: bool)

  datatype Origin = Nobody | Caller | Callee

  /** The INVITE server transaction that has no final response yet. */
  datatype Open = Answered | FirstInvite | ReInvite

  datatype Call = Call(origin: Origin, prRel: bool, pendingTr: bool, open: Open, rCSeq: int, lastScode: int,
                       hooked: bool)

  datatype Ua = Ua(st: State, cfg: Config, limits: Limits, timers: SetupTimers, q: Queue, stamps: Stamps,
                   media: Media, call: Call)

  /** What a handler did: the agent, the state it asks for, what it sent, the callback it called itself,
      and the one to be called once the state has changed. */
  datatype Res = Res(u: Ua, next: Option<State>, effs: seq<Eff>, call: Option<Cb>, cb: Option<Cb>)

  /** `lastRseq` belongs to the client transaction that delivered the response. */
  datatype RespRes = RespRes(r: Res, lastRseq: int, uack: bool)

  datatype Done = Done(u: Ua, effs: seq<Eff>, calls: seq<Cb>)

  function New(cfg: Config, nextSeq: int): Ua {
    Ua(NoState, cfg, Limits(None, None, None), NO_TIMERS, Queue([], -1, [], nextSeq),
       Stamps(None, None, None, None), Media(None, None, false),
       Call(Nobody, false, false, Answered, -1, 100, true))
  }

  // ---------------------------------------------------------------- states

  predicate Setup(s: State) {
    s.NoState? || s.UasIdle? || s.UasTrying? || s.UasRinging? || s.UasRingingRel? || s.UacIdle? || s.UacTrying? ||
    s.UacRinging?
  }

  /** The states that set `connected`. */
  predicate Established(s: State) {
    s.UasPreConnect? || s.UasUpdating? || s.UacUpdating? || s.Connected?
  }

  predicate Closing(s: State) { s.UacCancelling? || s.Failed? || s.Disconnected? }

  predicate LiveState(s: State) { Setup(s) || Established(s) }

  // ---------------------------------------------------------------- pieces

  function Stay(u: Ua, effs: seq<Eff>): Res { Res(u, None, effs, None, None) }

  function Event(u: Ua, kind: Kind, rtime: int): CCEvent { CCEvent(u.q.nextSeq, kind, rtime) }

  /** Create an event and queue it for the controller. */
  function Enqueue(u: Ua, kind: Kind, rtime: int): Ua {
    u.(q := u.q.(equeue := u.q.equeue + [Event(u, kind, rtime)], nextSeq := u.q.nextSeq + 1))
  }

  /** `EmitEvent`: past the queue, unless a later event was handed over already. */
  function Emit(u: Ua, e: CCEvent): Ua {
    if !u.call.hooked || (u.q.elastSeq != -1 && u.q.elastSeq >= e.seqNo) then u
    else u.(q := u.q.(elastSeq := e.seqNo, outbox := u.q.outbox + [e]))
  }

  /** A call does not end before it is answered. */
  predicate StampsOk(s: Stamps) {
    s.connect.Some? && s.disconnect.Some? ==> s.connect.value <= s.disconnect.value
  }

  function SetConnectTs(u: Ua, ts: int): (u': Ua)
    ensures u' == u.(stamps := u.stamps.(connect := u'.stamps.connect))
    ensures StampsOk(u.stamps) ==> StampsOk(u'.stamps)
  {
    if u.stamps.connect.Some? then u
    else if u.stamps.disconnect.Some? && ts > u.stamps.disconnect.value
    then u.(stamps := u.stamps.(connect := u.stamps.disconnect))
    else u.(stamps := u.stamps.(connect := Some(ts)))
  }

  function SetDisconnectTs(u: Ua, ts: int): (u': Ua)
    ensures u' == u.(stamps := u.stamps.(disconnect := u'.stamps.disconnect))
    ensures StampsOk(u'.stamps)
  {
    if u.stamps.connect.Some? && u.stamps.connect.value > ts
    then u.(stamps := u.stamps.(disconnect := u.stamps.connect))
    else u.(stamps := u.stamps.(disconnect := Some(ts)))
  }

  /** The end of a call that is being set up is never before its beginning. */
  function EndSetup(u: Ua, ts: int, now: int): (u': Ua)
    ensures u' == u.(stamps := u.stamps.(disconnect := u'.stamps.disconnect))
    ensures StampsOk(u'.stamps)
  {
    SetDisconnectTs(u, if u.stamps.setup.Some? && u.stamps.setup.value <= ts then ts else now)
  }

  function SetP1xxTs(u: Ua, ts: int): Ua {
    u.(stamps := u.stamps.(p1xx := Some(if u.stamps.p1xx.Some? then u.stamps.p1xx.value else ts)))
  }

  function CancelNoReply(u: Ua): Ua { u.(timers := u.timers.(noReply := None)) }

  function CancelNoProgress(u: Ua): Ua { u.(timers := u.timers.(noProgress := None)) }

  function CancelExpire(u: Ua): Ua { u.(timers := u.timers.(expire := None)) }

  function StartExpire(u: Ua, start: int): (u': Ua)
    ensures u' == u.(timers := u'.timers)
  {
    if u.limits.ex.None? then u
    else
      var deadline := if u.cfg.expireStartsOnSetup then u.limits.ex.value else start + u.cfg.expireTime;
      u.(timers := u.timers.(expire := Some(deadline)))
  }

  function StartNoProgress(u: Ua): Ua { u.(timers := u.timers.(noProgress := u.limits.np)) }

  function StartNoReply(u: Ua): Ua { u.(timers := u.timers.(noReply := u.limits.nr)) }

  function SetLocal(u: Ua, body: Option<Body>): Ua { u.(media := u.media.(local := body)) }

  function SetRemote(u: Ua, body: Option<Body>): Ua { u.(media := u.media.(remote := body)) }

  /** `SendUasResponse` on the INVITE; a final response answers it. */
  function AnswerInvite(u: Ua, code: int): Ua {
    if code >= 200 then u.(call := u.call.(open := Answered)) else u
  }

  // ---------------------------------------------------------------- caller side, not started

  function ExpireLimit(c: Config, t: int): Option<int> { if c.expireTime > 0 then Some(t + c.expireTime) else None }

  function ProgressLimit(c: Config, t: int): Option<int> {
    if c.noProgressTime > 0 && (c.expireTime <= 0 || c.noProgressTime < c.expireTime)
    then Some(t + c.noProgressTime) else None
  }

  function ReplyLimit(c: Config, t: int): Option<int> {
    if 0 < c.noReplyTime < 32000 && (c.expireTime <= 0 || c.noReplyTime < c.expireTime) &&
       (c.noProgressTime <= 0 || c.noReplyTime < c.noProgressTime)
    then Some(t + c.noReplyTime) else None
  }

  function StartFirstTimer(u: Ua, start: int): (u': Ua)
    ensures u' == u.(timers := u'.timers)
  {
    if u.limits.nr.Some? then StartNoReply(u)
    else if u.limits.np.Some? then StartNoProgress(u)
    else StartExpire(u, start)
  }

  function UacIdleEvent(u: Ua, e: CCEvent, now: int): Res {
    match e.kind
    case Try(body) =>
      var t := e.rtime;
      var u1 := u.(stamps := u.stamps.(setup := Some(if u.stamps.setup.Some? then u.stamps.setup.value else t)),
                   call := u.call.(origin := Callee),
                   media := u.media.(local := body, late := u.media.late || body.None?),
                   limits := Limits(ReplyLimit(u.cfg, t), ProgressLimit(u.cfg, t), ExpireLimit(u.cfg, t)));
      Res(StartFirstTimer(u1, t), Some(UacTrying), [SendRequest(INVITE)], None, None)
    case Fail(_) => UacIdleEnd(u, e, now)
    case Redirect(_, _) => UacIdleEnd(u, e, now)
    case Disconnect(_) => UacIdleEnd(u, e, now)
    case _ => Stay(u, [])
  }

  function UacIdleEnd(u: Ua, e: CCEvent, now: int): Res { Res(EndSetup(u, e.rtime, now), Some(Disconnected), [], None, Some(DiscCb)) }

  // ---------------------------------------------------------------- caller side, waiting for the answer

  /** A reliable provisional response is acknowledged if its number is the next one. */
  predicate RSeqOk(r: Resp, lastRseq: int) {
    r.m.rseq.Some? ==> lastRseq == 0 || lastRseq + 1 == r.m.rseq.value
  }

  function NewLastRseq(r: Resp, lastRseq: int): int { if r.m.rseq.Some? then r.m.rseq.value else lastRseq }

  function Pracks(r: Resp): seq<Eff> { if r.m.rseq.Some? then [SendPrack(r.m.rseq.value)] else [] }

  /** The timer escalation of `UacStateTrying.RecvResponse`. */
  function Escalate(u: Ua, code: int, rtime: int): (u': Ua)
    ensures u' == u.(timers := u'.timers)
  {
    if u.timers.noReply.None? then u
    else
      var u1 := CancelNoReply(u);
      if code == 100 && u.limits.np.Some? then StartNoProgress(u1)
      else if code < 200 then StartExpire(u1, rtime) else u1
  }

  function EscalateAgain(u: Ua, code: int, rtime: int): (u': Ua)
    ensures u' == u.(timers := u'.timers)
  {
    if u.timers.noProgress.None? then u
    else if code < 200 then StartExpire(CancelNoProgress(u), rtime) else CancelNoProgress(u)
  }

  function RedirectOrFail(r: Resp): Kind {
    if (r.m.code == 301 || r.m.code == 302 || r.m.code == 300) && r.contacts > 0 then Redirect(r.m.code, r.m.body)
    else Fail(r.m.code)
  }

  /** A final response other than 2xx ends the setup. */
  function SetupFailed(u: Ua, kind: Kind, r: Resp, now: int, effs: seq<Eff>, code: int): Res {
    Res(EndSetup(Enqueue(u, kind, r.rtime), r.rtime, now), Some(Failed), effs, None, Some(FailCb(code)))
  }

  /** A 2xx connects, unless the offer was left to the callee: then its ACK waits for the answer. */
  function Answer2xx(u: Ua, r: Resp, effs: seq<Eff>): Res {
    if !u.media.late || r.m.body.None? then
      var u1 := SetConnectTs(u.(media := u.media.(late := false)), r.rtime);
      Res(Enqueue(SetRemote(u1, r.m.body), Connect(r.m.code, r.m.body), r.rtime), Some(Connected), effs, None, Some(ConnCb))
    else
      var u1 := u.(call := u.call.(pendingTr := true));
      Res(Enqueue(SetRemote(u1, r.m.body), PreConnect(r.m.code, r.m.body), r.rtime), Some(Connected), effs, None, None)
  }

  predicate AsksUack(u: Ua, r: Resp) {
    200 <= r.m.code < 300 && r.m.toTag != EMPTY && u.media.late && r.m.body.Some?
  }

  function UacTryingResponse(u: Ua, r: Resp, lastRseq: int, now: int): RespRes {
    var code := r.m.code;
    var u1 := Escalate(u.(call := u.call.(lastScode := code)), code, r.rtime);
    if code == 100 then RespRes(Stay(Enqueue(u1, Ring(code, r.m.body), r.rtime), []), lastRseq, false)
    else
      var u2 := EscalateAgain(u1, code, r.rtime);
      if !RSeqOk(r, lastRseq) then RespRes(Stay(u2, []), lastRseq, false)
      else
        RespRes(
          if code < 200 then
            var u3 := u2.(stamps := u2.stamps.(p1xx := Some(r.rtime)));
            Res(Enqueue(SetRemote(u3, r.m.body), Ring(code, r.m.body), r.rtime), Some(UacRinging), Pracks(r), None, Some(RingCb(code)))
          else UacFinal(CancelExpire(u2), r, Pracks(r), code, now),
          NewLastRseq(r, lastRseq), AsksUack(u2, r))
  }

  /** A final response in `UacTrying` or `UacRinging`; they report a 2xx without a tag differently. */
  function UacFinal(u: Ua, r: Resp, effs: seq<Eff>, taglessCode: int, now: int): Res {
    if r.m.code < 300 then
      if r.m.toTag == EMPTY then SetupFailed(u, Fail(502), r, now, effs + [SendRequest(BYE)], taglessCode)
      else Answer2xx(u, r, effs)
    else SetupFailed(u, RedirectOrFail(r), r, now, effs, r.m.code)
  }

  function UacRingingResponse(u: Ua, r: Resp, lastRseq: int, now: int): RespRes {
    var code := r.m.code;
    var u1 := if code > 180 then u.(call := u.call.(lastScode := code)) else u;
    if code < 200 then
      if !RSeqOk(r, lastRseq) then RespRes(Stay(u1, []), lastRseq, false)
      else
        var u2 := Enqueue(SetRemote(SetP1xxTs(u1, r.rtime), r.m.body), Ring(code, r.m.body), r.rtime);
        RespRes(Res(u2, None, Pracks(r), Some(RingCb(code)), None), NewLastRseq(r, lastRseq), false)
    else RespRes(UacFinal(CancelExpire(u1), r, [], 502, now), lastRseq, AsksUack(u1, r))
  }

  predicate Ends(k: Kind) { k.Fail? || k.Redirect? || k.Disconnect? }

  function UacTryingEvent(u: Ua, e: CCEvent, now: int): Res {
    if !Ends(e.kind) then Stay(u, [])
    else Res(EndSetup(u.(timers := NO_TIMERS), e.rtime, now), Some(UacCancelling(false)), [CancelCall], None, Some(DiscCb))
  }

  function UacRingingEvent(u: Ua, e: CCEvent, now: int): Res {
    if !Ends(e.kind) then Stay(u, [])
    else Res(EndSetup(CancelExpire(u), e.rtime, now), Some(UacCancelling(false)), [CancelCall], None, Some(DiscCb))
  }

  function UacCancellingResponse(u: Ua, r: Resp): Res {
    if r.m.code < 200 then Stay(u, [])
    else if r.m.code < 300 then Res(u.(st := UacCancelling(false)), Some(Disconnected), [SendRequest(BYE)], None, None)
    else Res(u.(st := UacCancelling(false)), Some(Dead), [], None, None)
  }

  // ---------------------------------------------------------------- established

  /** A request or event that ends an established call. */
  function HangUp(u: Ua, ts: int, effs: seq<Eff>): Res { Res(SetDisconnectTs(u, ts), Some(Disconnected), effs, None, Some(DiscCb)) }

  predicate CarriesAddress(k: Kind) { k.Redirect? || (k.Disconnect? && k.redirect) }

  function ByeOrRefer(u: Ua, k: Kind): Method { if CarriesAddress(k) && u.cfg.useRefer then REFER else BYE }

  function ConnectedRequest(u: Ua, r: Req): Res {
    match r.verb
    case REFER =>
      if !r.referTo then Stay(u, [RespondOwn(400)])
      else
        var u1 := Enqueue(u, Disconnect(true), r.rtime);
        var own := Event(u1, Disconnect(false), r.rtime);
        var r1 := ConnectedEvent(u1.(q := u1.q.(nextSeq := u1.q.nextSeq + 1)), own);
        r1.(effs := [RespondOwn(202)] + r1.effs)
    case INVITE =>
      if r.body.Some? && u.media.remote == r.body then Stay(u, [RespondOwn(100), RespondOwn(200)])
      else
        var u1 := SetRemote(u.(call := u.call.(open := ReInvite)), r.body);
        Res(Enqueue(u1, Update(r.body, r.maxForwards), r.rtime), Some(UasUpdating), [RespondOwn(100)], None, None)
    case BYE => HangUp(Enqueue(u, Disconnect(r.also), r.rtime), r.rtime, [RespondOwn(200)])
    case INFO => Stay(Enqueue(u, Info(r.body), r.rtime), [RespondOwn(200)])
    case OPTIONS => Stay(u, [RespondOwn(200)])
    case UPDATE => Stay(u, [RespondOwn(200)])
    case _ => Stay(u, [])
  }

  function ConnectedEvent(u: Ua, e: CCEvent): Res {
    match e.kind
    case Update(body, maxForwards) =>
      if body.Some? && u.media.local == body then Stay(Enqueue(u, Connect(200, u.media.remote), e.rtime), [])
      else
        var u1 := u.(media := u.media.(late := u.media.late || body.None?));
        if maxForwards.Some? && maxForwards.value <= 0 then Stay(Enqueue(u1, Fail(483), e.rtime), [])
        else Res(SetLocal(u1, body), Some(UacUpdating), [SendRequest(INVITE)], None, None)
    case Info(_) => Stay(u, [SendRequest(INFO)])
    case Connect(_, body) =>
      if !u.call.pendingTr then Stay(u, [])
      else
        var u1 := SetLocal(SetConnectTs(CancelExpire(u), e.rtime), body);
        Res(u1.(call := u1.call.(pendingTr := false)), None, [SendAck], Some(ConnCb), None)
    case _ => if Ends(e.kind) then HangUp(u, e.rtime, [SendRequest(ByeOrRefer(u, e.kind))]) else Stay(u, [])
  }

  function UacUpdatingRequest(u: Ua, r: Req): Res {
    match r.verb
    case INVITE => Stay(u, [RespondOwn(491)])
    case BYE => HangUp(Enqueue(u, Disconnect(false), r.rtime), r.rtime, [CancelCall, RespondOwn(200)])
    case _ => Stay(u, [])
  }

  function UacUpdatingResponse(u: Ua, r: Resp): RespRes {
    var code := r.m.code;
    if code < 200 then RespRes(Stay(Enqueue(u, Ring(code, r.m.body), r.rtime), []), 0, false)
    else if code < 300 then
      var late := u.media.late && r.m.body.Some?;
      var u1 := SetRemote(u.(call := u.call.(pendingTr := u.call.pendingTr || late)), r.m.body);
      var kind := if late then PreConnect(code, r.m.body) else Connect(code, r.m.body);
      RespRes(Res(Enqueue(u1, kind, r.rtime), Some(Connected), [], None, None), 0, late)
    else
      var kind := RedirectOrFail(r);
      var u1 := Enqueue(if kind.Fail? then SetLocal(u, None) else u, kind, r.rtime);
      if code == 408 || code == 481 then
        RespRes(HangUp(Enqueue(u1, Disconnect(false), r.rtime), r.rtime, [SendRequest(BYE)]), 0, false)
      else RespRes(Res(u1, Some(Connected), [], None, None), 0, false)
  }

  function UacUpdatingEvent(u: Ua, e: CCEvent): Res {
    if Ends(e.kind) then HangUp(u, e.rtime, [CancelCall, SendRequest(BYE)]) else Stay(u, [])
  }

  // ---------------------------------------------------------------- callee side, before the answer

  function UasIdleRequest(u: Ua, r: Req): Res {
    if r.verb != INVITE then Stay(u, [])
    else
      var t := r.rtime;
      var u1 := Enqueue(u, Try(r.body), t);
      var u2 := u1.(call := u1.call.(origin := Caller, open := FirstInvite),
                    limits := u1.limits.(np := ProgressLimit(u.cfg, t), ex := ExpireLimit(u.cfg, t)),
                    stamps := u1.stamps.(setup := Some(t)));
      var u3 := if u2.limits.np.Some? then StartNoProgress(u2) else StartExpire(u2, t);
      Res(SetRemote(u3, r.body), Some(UasTrying), [RespondOwn(100)], None, None)
  }

  function RingCode(code: int): int { if code == 0 then 180 else code }

  function RingBody(k: Kind): Option<Body>
    requires k.Ring?
  {
    if k.code == 0 then None else k.body
  }

  function FailCode(code: int): int { if code == 0 then 500 else code }

  const NEW_REL: Rel := Rel(false, false, None, None, None)

  function UasTryingEvent(u: Ua, e: CCEvent): Res {
    match e.kind
    case Ring(_, _) =>
      var code, body := RingCode(e.kind.code), RingBody(e.kind);
      if code == 100 then Stay(u, [])
      else
        var u1 := AnswerInvite(SetLocal(u, body), code);
        var u2 := if u1.timers.noProgress.Some? then StartExpire(CancelNoProgress(u1), e.rtime) else u1;
        var next := if u.call.prRel then UasRingingRel(NEW_REL.(prackWait := body.Some?)) else UasRinging;
        Res(SetP1xxTs(u2, e.rtime), Some(next), [Respond(code, body, false)], None, Some(RingCb(code)))
    case PreConnect(code, body) =>
      Res(AnswerInvite(CancelNoProgress(SetLocal(u, body)), code), Some(UasPreConnect(true, None)),
          [Respond(code, body, true)], None, None)
    case Connect(code, body) =>
      var u1 := AnswerInvite(CancelNoProgress(CancelExpire(SetLocal(u, body))), code);
      Res(SetConnectTs(u1, e.rtime), Some(UasPreConnect(false, None)), [Respond(code, body, true)], None, Some(ConnCb))
    case Redirect(code, body) => UasFail(CancelNoProgress(u), e, code, body)
    case Fail(code) => UasFail(CancelNoProgress(u), e, FailCode(code), None)
    case Disconnect(_) => UasReject(CancelNoProgress(u), e, 500, None, Disconnected, DiscCb)
    case _ => Stay(u, [])
  }

  function UasReject(u: Ua, e: CCEvent, code: int, body: Option<Body>, next: State, cb: Cb): Res {
    Res(SetDisconnectTs(CancelExpire(AnswerInvite(u, code)), e.rtime), Some(next), [Respond(code, body, false)], None, Some(cb))
  }

  function UasFail(u: Ua, e: CCEvent, code: int, body: Option<Body>): Res { UasReject(u, e, code, body, Failed, FailCb(code)) }

  function UasRingingEvent(u: Ua, e: CCEvent): Res {
    match e.kind
    case Ring(_, _) =>
      var code, body := RingCode(e.kind.code), RingBody(e.kind);
      if code == 100 then Stay(u, [])
      else
        var u1 := AnswerInvite(SetP1xxTs(SetLocal(u, body), e.rtime), code);
        Res(u1, None, [Respond(code, body, false)], Some(RingCb(code)), None)
    case Connect(code, body) =>
      var u1 := CancelExpire(AnswerInvite(SetLocal(u, body), code));
      Res(SetConnectTs(u1, e.rtime), Some(UasPreConnect(false, None)), [Respond(code, body, true)], None, Some(ConnCb))
    case PreConnect(code, body) =>
      Res(AnswerInvite(SetLocal(u, body), code), Some(UasPreConnect(true, None)), [Respond(code, body, true)], None, None)
    case Redirect(code, body) => UasFail(u, e, code, body)
    case Fail(code) => UasFail(u, e, FailCode(code), None)
    case Disconnect(_) => UasReject(u, e, 500, None, Disconnected, DiscCb)
    case _ => Stay(u, [])
  }

  /** The BYE's own transaction gets 487; the INVITE stays unanswered. */
  function UasRingingRequest(u: Ua, r: Req): Res {
    if r.verb != BYE then Stay(u, [])
    else HangUp(CancelExpire(Enqueue(u, Disconnect(r.also), r.rtime)), r.rtime, [RespondOwn(487)])
  }

  function SetRel(u: Ua, rel: Rel): Ua { u.(st := UasRingingRel(rel)) }

  function RingingRelEvent(u: Ua, e: CCEvent): Res
    requires u.st.UasRingingRel?
  {
    var rel := u.st.rel;
    match e.kind
    case Ring(code, body) =>
      if !rel.prackReceived then Stay(if code > 100 then SetRel(u, rel.(ring := Some(e))) else u, [])
      else UasRingingEvent(SetRel(u, rel.(prackWait := body.Some?, prackReceived := false)), e)
    case Connect(_, _) =>
      if rel.prackWait && !rel.prackReceived then Stay(SetRel(u, rel.(connect := Some(e))), [])
      else UasRingingEvent(u, e)
    case Update(_, _) => Stay(SetRel(u, rel.(update := Some(e))), [])
    case _ => UasRingingEvent(u, e)
  }

  // ---------------------------------------------------------------- callee side, answered

  /** A BYE or REFER while an INVITE is pending: only the first response on its transaction counts. */
  function UasBye(u: Ua, r: Req, code: int): Res {
    HangUp(Enqueue(u, Disconnect(r.verb == REFER), r.rtime), r.rtime, [RespondOwn(code)])
  }

  function UasUpdatingRequest(u: Ua, r: Req): Res {
    match r.verb
    case INVITE => Stay(u, [RespondOwn(491)])
    case BYE => UasBye(u, r, 487)
    case REFER => if r.referTo then UasBye(u, r, 487) else Stay(u, [RespondOwn(400)])
    case _ => Stay(u, [])
  }

  function PreConnectRequest(u: Ua, r: Req): Res {
    match r.verb
    case INVITE => Stay(u, [RespondOwn(491)])
    case BYE => UasBye(u, r, 200)
    case REFER => if r.referTo then UasBye(u, r, 487) else Stay(u, [RespondOwn(400)])
    case _ => Stay(u, [])
  }

  function UasUpdatingEvent(u: Ua, e: CCEvent): Res {
    match e.kind
    case Ring(_, _) =>
      var code, body := RingCode(e.kind.code), RingBody(e.kind);
      Stay(AnswerInvite(SetLocal(u, body), code), [Respond(code, body, false)])
    case PreConnect(code, body) =>
      Res(AnswerInvite(SetLocal(u, body), code), Some(UasPreConnect(true, None)), [Respond(code, body, true)], None, None)
    case Connect(code, body) =>
      Res(AnswerInvite(SetLocal(u, body), code), Some(UasPreConnect(false, None)), [Respond(code, body, true)], None, None)
    case Redirect(code, body) =>
      Res(AnswerInvite(u, code), Some(UasPreConnect(false, None)), [Respond(code, body, true)], None, None)
    case Fail(code) =>
      var c := FailCode(code);
      Res(AnswerInvite(SetRemote(u, None), c), Some(UasPreConnect(false, None)), [Respond(c, None, true)], None, None)
    case Disconnect(_) => HangUp(AnswerInvite(u, 487), e.rtime, [Respond(487, None, false), SendRequest(BYE)])
    case _ => Stay(u, [])
  }

  function PreConnectEvent(u: Ua, e: CCEvent): Res
    requires u.st.UasPreConnect?
  {
    match e.kind
    case Update(_, _) => Stay(u.(st := u.st.(pendingUpdate := Some(e))), [])
    case Info(_) => Stay(u, [SendRequest(INFO)])
    case _ => if Ends(e.kind) then HangUp(u, e.rtime, [SendRequest(ByeOrRefer(u, e.kind))]) else Stay(u, [])
  }

  function DisconnectedRequest(u: Ua, r: Req): Res { Stay(u, [RespondOwn(if r.verb == BYE then 200 else 500)]) }

  // ---------------------------------------------------------------- change of state

  /** `OnDeactivate` of the state that is left. */
  function Deactivate(u: Ua): Done {
    match u.st
    case Connected =>
      var u1 := CancelExpire(u);
      Done(u1.(call := u1.call.(pendingTr := false)), if u.call.pendingTr then [SendAck] else [], [])
    case UasPreConnect(_, _) => Done(CancelExpire(u), [], [])
    case _ => Done(u, [], [])
  }

  /** `OnActivation` of the state that is entered. */
  function Activate(u: Ua, s: State): Ua {
    match s
    case UacCancelling(_) => u.(st := UacCancelling(true))
    case Dead => u.(st := Dead, timers := NO_TIMERS, call := u.call.(hooked := false))
    case _ => u.(st := s)
  }

  /** Once the agent is dead its callbacks are gone. */
  function Called(u: Ua, cb: Option<Cb>): seq<Cb> { if cb.Some? && u.call.hooked then [cb.value] else [] }

  function ChangeState(u: Ua, s: State, cb: Option<Cb>): Done {
    var d := Deactivate(u);
    var u1 := Activate(d.u, s);
    Done(u1, d.effs, Called(u1, cb))
  }

  /** Two things the agent does one after the other. */
  function Then(first: Done, second: Done): Done {
    Done(second.u, first.effs + second.effs, first.calls + second.calls)
  }

  /** What follows a handler: the change of state it asked for. */
  function Settle(r: Res): Done {
    match r.next
    case None => Done(r.u, r.effs, Called(r.u, r.call))
    case Some(s) => var d := ChangeState(r.u, s, r.cb); Done(d.u, r.effs + d.effs, Called(r.u, r.call) + d.calls)
  }

  // ---------------------------------------------------------------- inputs

  function HandleRequest(u: Ua, r: Req): Res {
    match u.st
    case UasIdle => UasIdleRequest(u, r)
    case UasRinging => UasRingingRequest(u, r)
    case UasRingingRel(_) => UasRingingRequest(u, r)
    case UasPreConnect(_, _) => PreConnectRequest(u, r)
    case UasUpdating => UasUpdatingRequest(u, r)
    case UacUpdating => UacUpdatingRequest(u, r)
    case Connected => ConnectedRequest(u, r)
    case Disconnected => DisconnectedRequest(u, r)
    case _ => Stay(u, [])
  }

  function RecvRequest(u: Ua, r: Req): Done {
    if u.call.rCSeq != -1 && u.call.rCSeq >= r.cseq then Done(u, [RespondOwn(500)], [])
    else
      var u1 := u.(call := u.call.(rCSeq := r.cseq));
      if u1.st.NoState? then
        if r.verb != INVITE then Done(u1, [], [])
        else if r.body.None? && r.requires100rel then Done(u1, [RespondOwn(420)], [])
        else
          var rel := r.body.Some? && (r.requires100rel || r.supports100rel);
          var u2 := Activate(u1.(call := u1.call.(prRel := rel)), UasIdle);
          Settle(HandleRequest(u2, r))
      else Settle(HandleRequest(u1, r))
  }

  function HandleResponse(u: Ua, r: Resp, lastRseq: int, now: int): RespRes {
    match u.st
    case UacTrying => UacTryingResponse(u, r, lastRseq, now)
    case UacRinging => UacRingingResponse(u, r, lastRseq, now)
    case UacUpdating => var x := UacUpdatingResponse(u, r); x.(lastRseq := lastRseq)
    case UacCancelling(_) => RespRes(UacCancellingResponse(u, r), lastRseq, false)
    case _ => RespRes(Stay(u, []), lastRseq, false)
  }

  function RecvResponse(u: Ua, r: Resp, lastRseq: int, now: int): Done { Settle(HandleResponse(u, r, lastRseq, now).r) }

  function HandleEvent(u: Ua, e: CCEvent, now: int): Res {
    match u.st
    case UasTrying => UasTryingEvent(u, e)
    case UasRinging => UasRingingEvent(u, e)
    case UasRingingRel(_) => RingingRelEvent(u, e)
    case UasPreConnect(_, _) => PreConnectEvent(u, e)
    case UasUpdating => UasUpdatingEvent(u, e)
    case UacIdle => UacIdleEvent(u, e, now)
    case UacTrying => UacTryingEvent(u, e, now)
    case UacRinging => UacRingingEvent(u, e, now)
    case UacUpdating => UacUpdatingEvent(u, e)
    case Connected => ConnectedEvent(u, e)
    case _ => Stay(u, [])
  }

  function RecvEvent(u: Ua, e: CCEvent, now: int): Done {
    if u.st.NoState? then
      if e.kind.Try? || e.kind.Fail? || e.kind.Disconnect?
      then Settle(HandleEvent(Activate(u, UacIdle), e, now))
      else Done(u, [], [])
    else Settle(HandleEvent(u, e, now))
  }

  /** `Disconnect`: one event for the controller, another for the agent itself. */
  function Hangup(u: Ua, now: int): Done {
    if !u.call.hooked then Done(u, [], [])
    else
      var u1 := Enqueue(u, Disconnect(false), now);
      RecvEvent(u1.(q := u1.q.(nextSeq := u1.q.nextSeq + 1)), Event(u1, Disconnect(false), now), now)
  }

  /** `RecvCancel` of the state that took the INVITE in; its transaction has sent 487. */
  function RecvCancel(u: Ua, now: int): Done {
    var e := Event(u, Disconnect(false), now);
    var u1 := SetDisconnectTs(u.(call := u.call.(open := Answered), q := u.q.(nextSeq := u.q.nextSeq + 1)), now);
    var d := ChangeState(u1, Disconnected, Some(DiscCb));
    Done(Emit(d.u, e), (if u.call.open == ReInvite && u.call.hooked then [SendRequest(BYE)] else []) + d.effs, d.calls)
  }

  /** The ACK to the final response; then comes the update that waited for it. */
  function RecvAck(u: Ua, body: Option<Body>, rtime: int, now: int): Done {
    match u.st
    case UasPreConnect(confirm, pending) =>
      var d := if confirm then ConfirmConnect(u, body, rtime) else ChangeState(u, Connected, None);
      if pending.None? then d else Then(d, RecvEvent(d.u, pending.value, now))
    case _ => Done(u, [], [])
  }

  /** The ACK carries the answer to an offer made in the final response. */
  function ConfirmConnect(u: Ua, body: Option<Body>, rtime: int): Done {
    var e := Event(u, Connect(0, body), rtime);
    var u1 := SetRemote(SetConnectTs(CancelExpire(u.(q := u.q.(nextSeq := u.q.nextSeq + 1))), rtime), body);
    var d := ChangeState(u1, Connected, Some(ConnCb));
    Done(Emit(d.u, e), d.effs, Called(u, Some(ConnCb)) + d.calls)
  }

  /** The PRACK lets go what waited for it. */
  function Release(u: Ua): Done
    requires u.st.UasRingingRel?
  {
    var rel := u.st.rel;
    var u0 := SetRel(u, rel.(prackReceived := true));
    if rel.connect.Some? then Settle(RingingRelEvent(u0, rel.connect.value))
    else if rel.ring.Some? then Settle(RingingRelEvent(u0, rel.ring.value))
    else Done(u0, [], [])
  }

  /** Only the state object in force keeps its fields. */
  function Forget(u: Ua, body: Option<Body>): Ua {
    var u1 := if u.st.UasRingingRel? then SetRel(u, u.st.rel.(ring := None, connect := None, update := None)) else u;
    if body.Some? then SetRemote(u1, body) else u1
  }

  /** The PRACK for the provisional response in flight. */
  function RecvPrack(u: Ua, body: Option<Body>, now: int): Done {
    match u.st
    case UasRingingRel(rel) =>
      var d0 := Release(u);
      var d1 := if rel.update.Some? then Then(d0, RecvEvent(d0.u, rel.update.value, now)) else d0;
      d1.(u := Forget(d1.u, body))
    case _ => Done(u, [], [])
  }

  /** Timers of the closing states. */
  function GoDead(u: Ua): Done { ChangeState(u, Dead, None) }

  /** One turn of `emitPendingEvents`. */
  function EmitNext(u: Ua): Ua
    requires u.q.equeue != []
  {
    Emit(u.(q := u.q.(equeue := u.q.equeue[1..])), u.q.equeue[0])
  }

  /** The whole loop. */
  function EmitAll(u: Ua): Ua
    decreases |u.q.equeue|
  {
    if u.q.equeue == [] || !u.call.hooked then u else EmitAll(EmitNext(u))
  }

  datatype SetupTimer = NoReply | NoProgress | Expire

  function Deadline(t: SetupTimers, which: SetupTimer): Option<int> {
    match which
    case NoReply => t.noReply
    case NoProgress => t.noProgress
    case Expire => t.expire
  }

  /** `no_reply_expires`, `no_progress_expires`, `expires`. */
  function SetupTimerFires(u: Ua, which: SetupTimer, now: int): Done {
    match which
    case NoReply => Hangup(CancelNoReply(u), now)
    case NoProgress => Hangup(CancelNoProgress(u), now)
    case Expire => Hangup(CancelExpire(u), now)
  }

  // ---------------------------------------------------------------- runs

  datatype Input =
    | GetRequest(r: Req)
    | GetResponse(resp: Resp, lastRseq: int)
    | GetEvent(e: CCEvent)
    | GetCancel
    | GetAck(body: Option<Body>, rtime: int)
    | GetPrack(body: Option<Body>)
    | GetTimeout(which: SetupTimer)
    | GetHangup            // no ACK or PRACK came
    | GetDeadTimeout
    | NextEvent            // the emission loop goes round once
    | Elsewhere            // another agent creates an event

  function Step(u: Ua, i: Input, now: int): Done
    requires i.NextEvent? ==> u.q.equeue != []
  {
    match i
    case GetRequest(r) => RecvRequest(u, r)
    case GetResponse(resp, lastRseq) => RecvResponse(u, resp, lastRseq, now)
    case GetEvent(e) => RecvEvent(u, e, now)
    case GetCancel => RecvCancel(u, now)
    case GetAck(body, rtime) => RecvAck(u, body, rtime, now)
    case GetPrack(body) => RecvPrack(u, body, now)
    case GetTimeout(which) => SetupTimerFires(u, which, now)
    case GetHangup => Hangup(u, now)
    case GetDeadTimeout => GoDead(u)
    case NextEvent => Done(EmitNext(u), [], [])
    case Elsewhere => Done(u.(q := u.q.(nextSeq := u.q.nextSeq + 1)), [], [])
  }

  /** What can happen: a timer fires while it is armed, a CANCEL finds an INVITE without a final
      response, and nothing comes from outside before the emission loop has ended; the controller may
      come back from inside the loop. */
  predicate Guard(u: Ua, i: Input) {
    match i
    case NextEvent => u.q.equeue != [] && u.call.hooked
    case GetEvent(_) => true
    case Elsewhere => true
    case _ => u.q.equeue == [] && Possible(u, i)
  }

  predicate Possible(u: Ua, i: Input) {
    match i
    case GetCancel => u.call.open != Answered
    case GetTimeout(which) => Deadline(u.timers, which).Some?
    case GetDeadTimeout => u.st.UacCancelling? || u.st.Failed? || u.st.Disconnected? || u.st.Dead?
    case _ => true
  }
}
