/** What the messages and events of a user agent mean to each other: what a response is to the controller,
    what a controller event is on the wire, and what is left of a call when it ends. */
module UaLaws {
  import opened Messages
  import opened UaSpec
  import opened UaProperties
  import opened UaHandlers
  import opened UaRuns
  import opened UaReports

  /** Events with these kinds, numbered one after the other. */
  function Created(seqNo: int, kinds: seq<Kind>, rtime: int): seq<CCEvent>
    decreases |kinds|
  {
    if kinds == [] then [] else [CCEvent(seqNo, kinds[0], rtime)] + Created(seqNo + 1, kinds[1..], rtime)
  }

  /** Exactly these events were created for the controller; they wait for the emission loop. */
  predicate Tells(u: Ua, u': Ua, kinds: seq<Kind>, rtime: int) {
    u'.q.outbox == u.q.outbox && u'.q.equeue == if kinds == [] then u.q.equeue else u.q.equeue + Created(u.q.nextSeq, kinds, rtime)
  }

  lemma {:induction false} CreatedKinds(n: int, kinds: seq<Kind>, rtime: int)
    ensures var es := Created(n, kinds, rtime);
            |es| == |kinds| && forall k :: 0 <= k < |es| ==> es[k] == CCEvent(n + k, kinds[k], rtime)
    decreases |kinds|
  {
    if kinds != [] { CreatedKinds(n + 1, kinds[1..], rtime); }
  }

  lemma CreatedOne(n: int, rtime: int)
    ensures forall k :: Created(n, [k], rtime) == [CCEvent(n, k, rtime)]
    ensures forall k, k' :: Created(n, [k, k'], rtime) == [CCEvent(n, k, rtime), CCEvent(n + 1, k', rtime)]
  {
    forall k: Kind ensures Created(n, [k], rtime) == [CCEvent(n, k, rtime)] { assert [k][1..] == []; }
    forall k: Kind, k': Kind ensures Created(n, [k, k'], rtime) == [CCEvent(n, k, rtime), CCEvent(n + 1, k', rtime)] {
      assert [k, k'][1..] == [k'] && [k'][1..] == [];
      assert Created(n + 1, [k'], rtime) == [CCEvent(n + 1, k', rtime)];
    }
  }

  /** Nothing was told, sent or called. */
  predicate Quiet(u: Ua, d: Done) {
    d.u.q == u.q && d.effs == [] && d.calls == [] && d.u.st == u.st && d.u.media == u.media && d.u.stamps == u.stamps
  }

  // ---------------------------------------------------------------- responses while a call goes out

  predicate GoesOut(s: State) { s.UacTrying? || s.UacRinging? }

  /** A reliable provisional response out of order; before the first one that rings, any reliable one. */
  predicate OutOfOrder(u: Ua, r: Resp, lastRseq: int) {
    r.m.rseq.Some? && lastRseq != 0 && r.m.rseq.value != lastRseq + 1 && (if u.st.UacTrying? then r.m.code != 100 else r.m.code < 200)
  }

  predicate Tagged(r: Resp) { r.m.toTag != EMPTY }

  predicate LateOffer(u: Ua, r: Resp) { u.media.late && r.m.body.Some? }

  /** What a response tells the controller: its code and body, as a ring, an answer, or the end. */
  function Meaning(u: Ua, r: Resp): Kind {
    var code, body := r.m.code, r.m.body;
    if code < 200 then Ring(code, body)
    else if code < 300 then
      if !Tagged(r) then Fail(502) else if LateOffer(u, r) then PreConnect(code, body) else Connect(code, body)
    else if code in {300, 301, 302} && r.contacts > 0 then Redirect(code, body)
    else Fail(code)
  }

  predicate TryingAgain(u: Ua, r: Resp) { u.st.UacTrying? && r.m.code == 100 }

  function CallAfter(u: Ua, r: Resp): State {
    if r.m.code < 200 then if TryingAgain(u, r) then UacTrying else UacRinging
    else if r.m.code < 300 && Tagged(r) then Connected
    else Failed
  }

  /** What the application is told. */
  function CallbackFor(u: Ua, r: Resp): seq<Cb> {
    if r.m.code < 200 then if TryingAgain(u, r) then [] else [RingCb(r.m.code)]
    else if r.m.code < 300 && Tagged(r) then if LateOffer(u, r) then [] else [ConnCb]
    else if r.m.code < 300 then [FailCb(if u.st.UacTrying? then r.m.code else 502)]
    else [FailCb(r.m.code)]
  }

  /** A PRACK for a reliable provisional response, a BYE for an answer that made no dialog. */
  function AnswerTo(u: Ua, r: Resp): seq<Eff> {
    (if r.m.rseq.Some? && !TryingAgain(u, r) && (u.st.UacTrying? || r.m.code < 200) then [SendPrack(r.m.rseq.value)] else []) +
    (if 200 <= r.m.code < 300 && !Tagged(r) then [SendRequest(BYE)] else [])
  }

  predicate Heard(u: Ua, r: Resp, d: Done) {
    Tells(u, d.u, [Meaning(u, r)], r.rtime) && d.u.st == CallAfter(u, r) && d.effs == AnswerTo(u, r) && d.calls == CallbackFor(u, r)
  }

  lemma AnswerHeard(u: Ua, v: Ua, r: Resp, effs: seq<Eff>)
    requires GoesOut(u.st) && v.st == u.st && v.q == u.q && v.media == u.media && v.call.hooked && 200 <= r.m.code < 300 && Tagged(r)
    requires effs == AnswerTo(u, r)
    ensures Heard(u, r, Settle(Answer2xx(v, r, effs)))
  {
    CreatedOne(u.q.nextSeq, r.rtime);
    hide Created;
    hide SetConnectTs;
    assert effs + [] == effs && [] + [ConnCb] == [ConnCb];
    if LateOffer(u, r) { } else { }
  }

  lemma FailureHeard(u: Ua, v: Ua, r: Resp, now: int, effs: seq<Eff>, code: int)
    requires GoesOut(u.st) && v.st == u.st && v.q == u.q && v.call.hooked && r.m.code >= 200 && Ends(Meaning(u, r))
    requires effs == AnswerTo(u, r) && CallbackFor(u, r) == [FailCb(code)]
    ensures Heard(u, r, Settle(SetupFailed(v, Meaning(u, r), r, now, effs, code)))
  {
    CreatedOne(u.q.nextSeq, r.rtime);
    hide Created;
    hide EndSetup;
  }

  lemma FinalHeard(u: Ua, v: Ua, r: Resp, now: int, x: Res, effs: seq<Eff>, code: int)
    requires GoesOut(u.st) && v.st == u.st && v.q == u.q && v.media == u.media && v.call.hooked && r.m.code >= 200
    requires x == UacFinal(v, r, effs, code, now) && code == (if u.st.UacTrying? then r.m.code else 502)
    requires effs == (if r.m.rseq.Some? && u.st.UacTrying? then [SendPrack(r.m.rseq.value)] else [])
    ensures Heard(u, r, Settle(x))
  {
    hide Heard, Answer2xx, SetupFailed, Settle;
    if r.m.code < 300 && Tagged(r) {
      AnswerHeard(u, v, r, effs);
    } else if r.m.code < 300 {
      FailureHeard(u, v, r, now, effs + [SendRequest(BYE)], code);
    } else {
      FailureHeard(u, v, r, now, effs, r.m.code);
    }
  }

  lemma ProvisionalHeard(u: Ua, r: Resp, lastRseq: int, now: int)
    requires Good(u) && GoesOut(u.st) && r.m.code < 200
    ensures OutOfOrder(u, r, lastRseq) ==> Quiet(u, RecvResponse(u, r, lastRseq, now))
    ensures !OutOfOrder(u, r, lastRseq) ==> Heard(u, r, RecvResponse(u, r, lastRseq, now))
  {
    CreatedOne(u.q.nextSeq, r.rtime);
    hide Created;
    hide Escalate, EscalateAgain, LimitsOk, QueueOk;
    assert [] + AnswerTo(u, r) == AnswerTo(u, r) == AnswerTo(u, r) + [];
    var x := HandleResponse(u, r, lastRseq, now).r;
    if !OutOfOrder(u, r, lastRseq) {
      assert x.u.q.equeue == u.q.equeue + [CCEvent(u.q.nextSeq, Ring(r.m.code, r.m.body), r.rtime)];
      assert x.effs == AnswerTo(u, r);
    }
  }

  /** For every agent whose call goes out and every response: exactly one event with the code and the body
      of the response, and nothing else happens to the call than what the class of the response says. */
  lemma ResponseHeard(u: Ua, r: Resp, lastRseq: int, now: int)
    requires Good(u) && GoesOut(u.st)
    ensures OutOfOrder(u, r, lastRseq) ==> Quiet(u, RecvResponse(u, r, lastRseq, now))
    ensures !OutOfOrder(u, r, lastRseq) ==> Heard(u, r, RecvResponse(u, r, lastRseq, now))
  {
    if r.m.code < 200 {
      ProvisionalHeard(u, r, lastRseq, now);
    } else {
      hide Heard, Settle;
      LaterHeard(u, r, lastRseq, now);
    }
  }

  lemma LaterHeard(u: Ua, r: Resp, lastRseq: int, now: int)
    requires Good(u) && GoesOut(u.st) && r.m.code >= 200
    ensures OutOfOrder(u, r, lastRseq) ==> Quiet(u, RecvResponse(u, r, lastRseq, now))
    ensures !OutOfOrder(u, r, lastRseq) ==> Heard(u, r, RecvResponse(u, r, lastRseq, now))
  {
    hide UacFinal, Escalate, EscalateAgain, LimitsOk, QueueOk, Heard;
    var x := HandleResponse(u, r, lastRseq, now).r;
    if u.st.UacTrying? {
      var u1 := Escalate(u.(call := u.call.(lastScode := r.m.code)), r.m.code, r.rtime);
      var u2 := EscalateAgain(u1, r.m.code, r.rtime);
      if !OutOfOrder(u, r, lastRseq) { FinalHeard(u, CancelExpire(u2), r, now, x, Pracks(r), r.m.code); }
    } else {
      var u1 := if r.m.code > 180 then u.(call := u.call.(lastScode := r.m.code)) else u;
      FinalHeard(u, CancelExpire(u1), r, now, x, [], 502);
    }
  }

  /** The body that was heard, the ACK that waits, and when the call was answered or ended. */
  predicate Remembered(u: Ua, r: Resp, now: int, u': Ua) {
    var k := Meaning(u, r);
    u'.media == Media(u.media.local, if (k.Ring? && !TryingAgain(u, r)) || Answers(k) then r.m.body else u.media.remote,
                      u.media.late && !k.Connect?) &&
    (u'.call.pendingTr <==> u.call.pendingTr || k.PreConnect?) &&
    (if k.Connect? then AnsweredAt(u, r.rtime, u') else u'.stamps.connect == u.stamps.connect) &&
    (if Ends(k) then EndedAt(u, r.rtime, now, u') else u'.stamps.disconnect == u.stamps.disconnect) &&
    u'.stamps.setup == u.stamps.setup &&
    u'.stamps.p1xx == (if !k.Ring? || TryingAgain(u, r) then u.stamps.p1xx
                       else if u.st.UacRinging? && u.stamps.p1xx.Some? then u.stamps.p1xx
                       else Some(r.rtime))
  }

  predicate AnsweredAt(u: Ua, rtime: int, u': Ua) {
    u'.stamps.connect.Some? && (u.stamps.connect.Some? ==> u'.stamps.connect == u.stamps.connect) &&
    (u.stamps.connect.None? && u.stamps.disconnect.None? ==> u'.stamps.connect == Some(rtime))
  }

  lemma FinalRemembered(u: Ua, v: Ua, r: Resp, now: int, effs: seq<Eff>, code: int)
    requires GoesOut(u.st) && v.st == u.st && v.stamps == u.stamps && v.media == u.media && r.m.code >= 200
    requires v.call.pendingTr == u.call.pendingTr
    ensures Remembered(u, r, now, Settle(UacFinal(v, r, effs, code, now)).u)
  {
    hide Remembered, Answer2xx, SetupFailed, Settle;
    if r.m.code < 300 && Tagged(r) {
      AnswerRemembered(u, v, r, now, effs);
    } else {
      var e := if r.m.code < 300 then effs + [SendRequest(BYE)] else effs;
      FailureRemembered(u, v, r, now, e, if r.m.code < 300 then code else r.m.code);
    }
  }

  lemma AnswerRemembered(u: Ua, v: Ua, r: Resp, now: int, effs: seq<Eff>)
    requires GoesOut(u.st) && v.st == u.st && v.stamps == u.stamps && v.media == u.media && 200 <= r.m.code < 300 && Tagged(r)
    requires v.call.pendingTr == u.call.pendingTr
    ensures Remembered(u, r, now, Settle(Answer2xx(v, r, effs)).u)
  {
  }

  lemma FailureRemembered(u: Ua, v: Ua, r: Resp, now: int, effs: seq<Eff>, code: int)
    requires GoesOut(u.st) && v.st == u.st && v.stamps == u.stamps && v.media == u.media && r.m.code >= 200 && Ends(Meaning(u, r))
    requires v.call.pendingTr == u.call.pendingTr
    ensures Remembered(u, r, now, Settle(SetupFailed(v, Meaning(u, r), r, now, effs, code)).u)
  {
  }

  /** The answer of the callee is the last body heard; an answer starts the call, a failure ends it. */
  lemma ResponseRemembered(u: Ua, r: Resp, lastRseq: int, now: int)
    requires Good(u) && GoesOut(u.st) && !OutOfOrder(u, r, lastRseq)
    ensures Remembered(u, r, now, RecvResponse(u, r, lastRseq, now).u)
  {
    hide UacFinal, Escalate, EscalateAgain, LimitsOk, QueueOk, EndedAt, AnsweredAt;
    if r.m.code >= 200 {
      hide Remembered, Settle;
      if u.st.UacTrying? {
        var u1 := Escalate(u.(call := u.call.(lastScode := r.m.code)), r.m.code, r.rtime);
        FinalRemembered(u, CancelExpire(EscalateAgain(u1, r.m.code, r.rtime)), r, now, Pracks(r), r.m.code);
      } else {
        FinalRemembered(u, CancelExpire(if r.m.code > 180 then u.(call := u.call.(lastScode := r.m.code)) else u), r, now, [], 502);
      }
    }
  }

  /** The end of a call that was not answered: when it was heard of, unless that is before its beginning. */
  predicate EndedAt(u: Ua, rtime: int, now: int, u': Ua) {
    u.stamps.connect.None? && u.stamps.setup.Some? ==>
      u'.stamps.disconnect == Some(if u.stamps.setup.value <= rtime then rtime else now)
  }

  /** A final response stops all setup timers. */
  lemma FinalStopsTimers(u: Ua, r: Resp, lastRseq: int, now: int)
    requires Good(u) && GoesOut(u.st) && !OutOfOrder(u, r, lastRseq) && r.m.code >= 200
    ensures RecvResponse(u, r, lastRseq, now).u.timers == NO_TIMERS
  {
    hide QueueOk, LimitsOk, UacFinal;
    if u.st.UacTrying? {
      var u1 := Escalate(u.(call := u.call.(lastScode := r.m.code)), r.m.code, r.rtime);
      FinalKeepsTimers(CancelExpire(EscalateAgain(u1, r.m.code, r.rtime)), r, Pracks(r), r.m.code, now);
    } else {
      FinalKeepsTimers(CancelExpire(if r.m.code > 180 then u.(call := u.call.(lastScode := r.m.code)) else u), r, [], 502, now);
    }
  }

  lemma FinalKeepsTimers(u: Ua, r: Resp, effs: seq<Eff>, code: int, now: int)
    requires GoesOut(u.st)
    ensures Settle(UacFinal(u, r, effs, code, now)).u.timers == u.timers
  {
    hide SetConnectTs, EndSetup;
  }

  /** The deadline of an expiry timer that is started. */
  function ExpiryFrom(u: Ua, start: int): Option<int> {
    if u.limits.ex.None? then None
    else if u.cfg.expireStartsOnSetup then u.limits.ex
    else Some(start + u.cfg.expireTime)
  }

  /** A provisional response: the no-reply timer gives way to the no-progress timer if it is a 100 and there
      is one, otherwise to the expiry timer; the no-progress timer gives way to the expiry timer if it is not
      a 100. */
  lemma TimersGiveWay(u: Ua, r: Resp, lastRseq: int, now: int)
    requires Good(u) && GoesOut(u.st) && r.m.code < 200
    ensures RecvResponse(u, r, lastRseq, now).u.timers ==
              if u.timers.noReply.Some? && r.m.code == 100 && u.limits.np.Some? then SetupTimers(None, u.limits.np, None)
              else if u.timers.noReply.Some? || (u.timers.noProgress.Some? && r.m.code != 100)
              then SetupTimers(None, None, ExpiryFrom(u, r.rtime))
              else u.timers
  {
    hide QueueOk, LimitsOk, Queues;
  }

  // ---------------------------------------------------------------- responses in an established call

  /** What the answer to a re-INVITE tells the controller; a failure tells it too, and one that leaves no
      dialog ends the call. */
  function UpdateMeaning(u: Ua, r: Resp): seq<Kind> {
    var code, body := r.m.code, r.m.body;
    if code < 200 then [Ring(code, body)]
    else if code < 300 then [if LateOffer(u, r) then PreConnect(code, body) else Connect(code, body)]
    else if code in {408, 481} then [Fail(code), Disconnect(false)]
    else [if code in {300, 301, 302} && r.contacts > 0 then Redirect(code, body) else Fail(code)]
  }

  lemma UpdateHeard(u: Ua, r: Resp, lastRseq: int, now: int)
    requires Good(u) && u.st.UacUpdating?
    ensures var d, code := RecvResponse(u, r, lastRseq, now), r.m.code;
            Tells(u, d.u, UpdateMeaning(u, r), r.rtime) &&
            d.u.st == (if code < 200 then UacUpdating else if code in {408, 481} then Disconnected else Connected) &&
            d.effs == (if code in {408, 481} then [SendRequest(BYE)] else []) &&
            d.calls == (if code in {408, 481} then [DiscCb] else []) &&
            d.u.media.remote == (if 200 <= code < 300 then r.m.body else u.media.remote) &&
            d.u.media.local == (if UpdateMeaning(u, r)[0].Fail? then None else u.media.local) &&
            (d.u.call.pendingTr <==> u.call.pendingTr || UpdateMeaning(u, r)[0].PreConnect?) &&
            (code in {408, 481} ==> d.u.stamps.disconnect.Some?) && d.u.stamps.connect == u.stamps.connect
  {
    CreatedOne(u.q.nextSeq, r.rtime);
    hide Created;
    hide LimitsOk;
    if r.m.code < 200 {
    } else if r.m.code < 300 {
    } else {
      var e1 := CCEvent(u.q.nextSeq, UpdateMeaning(u, r)[0], r.rtime);
      var e2 := CCEvent(u.q.nextSeq + 1, Disconnect(false), r.rtime);
      assert (u.q.equeue + [e1]) + [e2] == u.q.equeue + [e1, e2];
    }
  }

  /** The answer to an INVITE that was cancelled: a 2xx is ended at once, any other final response is the
      end of the agent, and the controller hears of neither. */
  lemma LateAnswerHeard(u: Ua, r: Resp, lastRseq: int, now: int)
    requires Good(u) && u.st.UacCancelling?
    ensures var d := RecvResponse(u, r, lastRseq, now);
            Sent(d.u) == Sent(u) && d.calls == [] && d.effs == (if 200 <= r.m.code < 300 then [SendRequest(BYE)] else []) &&
            d.u.st == (if r.m.code < 200 then u.st else if r.m.code < 300 then Disconnected else Dead)
  {
    hide LimitsOk, QueueOk;
  }

  lemma OtherResponsesQuiet(u: Ua, r: Resp, lastRseq: int, now: int)
    requires Good(u) && !GoesOut(u.st) && !u.st.UacUpdating? && !u.st.UacCancelling?
    ensures Quiet(u, RecvResponse(u, r, lastRseq, now))
  {
    hide LimitsOk, QueueOk;
  }

  // ---------------------------------------------------------------- events while a call comes in

  /** A response on the INVITE, and whether its ACK is awaited by the agent. */
  datatype Spoken = Silent | Speaks(code: int, body: Option<Body>, ackWait: bool)

  /** What an event says to the caller: its code and body, where 0 stands for 180 without a body and for
      500, and a disconnect for 500. */
  function Says(k: Kind): Spoken {
    match k
    case Ring(code, body) => if code == 0 then Speaks(180, None, false) else if code == 100 then Silent else Speaks(code, body, false)
    case PreConnect(code, body) => Speaks(code, body, true)
    case Connect(code, body) => Speaks(code, body, true)
    case Redirect(code, body) => Speaks(code, body, false)
    case Fail(code) => Speaks(if code == 0 then 500 else code, None, false)
    case Disconnect(_) => Speaks(500, None, false)
    case _ => Silent
  }

  /** Held back until the PRACK. */
  predicate Held(s: State, k: Kind) {
    s.UasRingingRel? && ((k.Ring? && !s.rel.prackReceived) || (k.Connect? && s.rel.prackWait && !s.rel.prackReceived) || k.Update?)
  }

  function Response1(x: Spoken): seq<Eff> { if x.Silent? then [] else [Respond(x.code, x.body, x.ackWait)] }

  /** Where an event that speaks takes the call, and what the application is told. */
  function SpokenTo(u: Ua, k: Kind): State {
    match k
    case Ring(_, _) => RingsIn(u, k)
    case PreConnect(_, _) => UasPreConnect(true, None)
    case Connect(_, _) => UasPreConnect(false, None)
    case Disconnect(_) => Disconnected
    case _ => Failed
  }

  function CallbackAfter(k: Kind): seq<Cb> {
    match Says(k)
    case Silent => []
    case Speaks(code, _, _) =>
      if k.Ring? then [RingCb(code)]
      else if k.PreConnect? then []
      else if k.Connect? then [ConnCb]
      else if k.Disconnect? then [DiscCb]
      else [FailCb(code)]
  }

  /** Where the call rings: with 100rel it waits for a PRACK, the more if there is a body to answer. */
  function RingsIn(u: Ua, k: Kind): State
    requires k.Ring?
  {
    match u.st
    case UasRingingRel(rel) => UasRingingRel(Rel(false, k.body.Some?, rel.ring, rel.connect, rel.update))
    case UasTrying => if u.call.prRel then UasRingingRel(Rel(false, k.code != 0 && k.body.Some?, None, None, None)) else UasRinging
    case _ => UasRinging
  }

  predicate IsSpoken(u: Ua, e: CCEvent, d: Done) {
    d.effs == Response1(Says(e.kind)) && Sent(d.u) == Sent(u) &&
    (Says(e.kind).Speaks? ==> d.u.st == SpokenTo(u, e.kind) && d.calls == CallbackAfter(e.kind))
  }

  lemma TryingSpoken(u: Ua, e: CCEvent)
    requires u.call.hooked && u.st.UasTrying?
    ensures IsSpoken(u, e, Settle(UasTryingEvent(u, e)))
  {
    hide SetConnectTs, SetDisconnectTs, StartExpire;
    match e.kind
    case Ring(_, _) =>
    case _ =>
  }

  lemma RingingSpoken(u: Ua, v: Ua, e: CCEvent)
    requires u.call.hooked && (u.st.UasRinging? || u.st.UasRingingRel?) && !e.kind.Update?
    requires v == u.(st := if e.kind.Ring? then RingsIn(u, e.kind) else u.st)
    ensures IsSpoken(u, e, Settle(UasRingingEvent(v, e)))
  {
    hide SetConnectTs, SetDisconnectTs;
    match e.kind
    case Ring(_, _) =>
    case _ =>
  }

  /** For every agent whose call comes in and every event that is not held back: the caller gets exactly one
      response, with the code and the body of the event, if it has something to say. */
  lemma EventSpoken(u: Ua, e: CCEvent, now: int)
    requires Good(u) && CallerSide(u.st) && !Held(u.st, e.kind)
    ensures IsSpoken(u, e, RecvEvent(u, e, now))
  {
    if u.st.UasTrying? {
      TryingSpoken(u, e);
    } else if !e.kind.Update? {
      RingingSpoken(u, u.(st := if e.kind.Ring? then RingsIn(u, e.kind) else u.st), e);
    }
    hide IsSpoken, Settle, UasTryingEvent, UasRingingEvent, LimitsOk, QueueOk;
  }

  /** The body sent is the last one the caller was offered; a final response answers the INVITE; a call
      that is answered starts, one that ends is timed and has no timer left. */
  predicate SpokenRemembered(u: Ua, e: CCEvent, u': Ua) {
    var x, k := Says(e.kind), e.kind;
    (x.Speaks? ==>
       u'.media == u.media.(local := if k.Ring? || Answers(k) then x.body else u.media.local) &&
       u'.call == u.call.(open := if x.code >= 200 then Answered else u.call.open) &&
       (if k.Connect? then AnsweredAt(u, e.rtime, u') else u'.stamps.connect == u.stamps.connect) &&
       (if Ends(k) then TimedEnd(u, e.rtime, u') else u'.stamps.disconnect == u.stamps.disconnect) &&
       (k.Ring? ==> u'.stamps.p1xx == Some(if u.stamps.p1xx.Some? then u.stamps.p1xx.value else e.rtime)) &&
       u'.timers == SpokenTimers(u, e)) &&
    (x.Silent? ==> u'.media == u.media && u'.stamps == u.stamps && u'.call == u.call && u'.timers == u.timers)
  }

  predicate TimedEnd(u: Ua, rtime: int, u': Ua) {
    u'.stamps.disconnect ==
      if u.stamps.connect.Some? && u.stamps.connect.value > rtime then u.stamps.connect else Some(rtime)
  }

  /** Ringing lets the no-progress timer give way to the expiry timer; an answer whose ACK will confirm it
      leaves the expiry timer on. */
  function SpokenTimers(u: Ua, e: CCEvent): SetupTimers {
    match e.kind
    case Ring(_, _) =>
      if u.timers.noProgress.Some? && u.st.UasTrying? then u.timers.(noProgress := None, expire := if u.limits.ex.Some? then ExpiryFrom(u, e.rtime) else u.timers.expire)
      else u.timers
    case PreConnect(_, _) => u.timers.(noProgress := None)
    case _ => NO_TIMERS
  }

  lemma TryingRemembered(u: Ua, e: CCEvent)
    requires u.st.UasTrying? && u.timers.noReply.None?
    ensures SpokenRemembered(u, e, Settle(UasTryingEvent(u, e)).u)
  {
    if e.kind.Ring? {
      TryingRingRemembered(u, e);
    } else if Answers(e.kind) {
      TryingAnswerRemembered(u, e);
    } else {
      TryingEndRemembered(u, e);
    }
    hide SpokenRemembered, Settle, UasTryingEvent;
  }

  lemma TryingRingRemembered(u: Ua, e: CCEvent)
    requires u.st.UasTrying? && u.timers.noReply.None? && e.kind.Ring?
    ensures SpokenRemembered(u, e, Settle(UasTryingEvent(u, e)).u)
  {
  }

  lemma TryingAnswerRemembered(u: Ua, e: CCEvent)
    requires u.st.UasTrying? && u.timers.noReply.None? && Answers(e.kind)
    ensures SpokenRemembered(u, e, Settle(UasTryingEvent(u, e)).u)
  {
  }

  lemma TryingEndRemembered(u: Ua, e: CCEvent)
    requires u.st.UasTrying? && u.timers.noReply.None? && !e.kind.Ring? && !Answers(e.kind)
    ensures SpokenRemembered(u, e, Settle(UasTryingEvent(u, e)).u)
  {
    if Ends(e.kind) {
      var code, next := Says(e.kind).code, SpokenTo(u, e.kind);
      var cb := if e.kind.Disconnect? then DiscCb else FailCb(code);
      var body := Says(e.kind).body;
      assert UasTryingEvent(u, e) == UasReject(CancelNoProgress(u), e, code, body, next, cb);
      hide UasTryingEvent, UasReject, Settle;
      RejectRemembered(u, CancelNoProgress(u), e, code, body, next, cb);
    }
  }

  lemma RejectRemembered(u: Ua, v: Ua, e: CCEvent, code: int, body: Option<Body>, next: State, cb: Cb)
    requires v == CancelNoProgress(u) && CallerSide(u.st) && u.timers.noReply.None? && Ends(e.kind)
    requires Says(e.kind) == Speaks(code, body, false) && (next.Failed? || next.Disconnected?)
    ensures SpokenRemembered(u, e, Settle(UasReject(v, e, code, body, next, cb)).u)
  {
  }

  lemma RingingRemembered(u: Ua, v: Ua, e: CCEvent)
    requires (u.st.UasRinging? || u.st.UasRingingRel?) && !e.kind.Update? && v == u.(st := v.st) && !v.st.Connected?
    requires u.timers.noReply.None? && u.timers.noProgress.None? && !v.st.UasPreConnect?
    ensures SpokenRemembered(u, e, Settle(UasRingingEvent(v, e)).u)
  {
    match e.kind
    case Ring(_, _) =>
    case Connect(_, _) =>
    case _ =>
  }

  lemma EventRemembered(u: Ua, e: CCEvent, now: int)
    requires Good(u) && CallerSide(u.st) && !Held(u.st, e.kind)
    ensures SpokenRemembered(u, e, RecvEvent(u, e, now).u)
  {
    if u.st.UasTrying? {
      TryingRemembered(u, e);
    } else if !e.kind.Update? {
      RingingRemembered(u, u.(st := if e.kind.Ring? then RingsIn(u, e.kind) else u.st), e);
    }
    hide SpokenRemembered, Settle, UasTryingEvent, UasRingingEvent, LimitsOk, QueueOk;
  }

  /** An event that is held back is all that changes. */
  lemma EventHeld(u: Ua, e: CCEvent, now: int)
    requires Good(u) && Held(u.st, e.kind)
    ensures var rel := u.st.rel;
            var rel' := match e.kind
                        case Ring(code, _) => if code > 100 then rel.(ring := Some(e)) else rel
                        case Connect(_, _) => rel.(connect := Some(e))
                        case _ => rel.(update := Some(e));
            RecvEvent(u, e, now) == Done(u.(st := UasRingingRel(rel')), [], [])
  {
    hide LimitsOk, QueueOk;
  }

  // ---------------------------------------------------------------- the PRACK lets go

  /** What waits for the PRACK and is let go by it: an answer, or else a ring. */
  function Next(rel: Rel): Option<CCEvent> { if rel.connect.Some? then rel.connect else rel.ring }

  /** The agent when its response was acknowledged. */
  function Acknowledged(u: Ua): Ua
    requires u.st.UasRingingRel?
  {
    u.(st := UasRingingRel(u.st.rel.(prackReceived := true)))
  }

  lemma ReleasedExactly(u: Ua)
    requires Good(u) && u.st.UasRingingRel? && PendingOk(u.st)
    ensures Release(u) == if Next(u.st.rel).Some? then RecvEvent(Acknowledged(u), Next(u.st.rel).value, 0) else Done(Acknowledged(u), [], [])
  {
    hide RingingRelEvent, Settle, LimitsOk, QueueOk;
  }

  /** The event that waits is answered exactly as if it came after the PRACK: an answer with its code and
      body, and then the ACK is awaited; a ring the same way, and then the next PRACK.  An update waits on
      for the ACK, and the body of the PRACK is the last one heard. */
  lemma PrackLetsGo(u: Ua, body: Option<Body>, now: int)
    requires Good(u) && u.st.UasRingingRel? && PendingOk(u.st) && (u.st.rel.ring.Some? ==> u.st.rel.ring.value.kind.code > 100)
    ensures var d, rel := RecvPrack(u, body, now), u.st.rel;
            Sent(d.u) == Sent(u) &&
            d.effs == (if Next(rel).Some? then Response1(Says(Next(rel).value.kind)) else []) &&
            d.u.st == (if rel.connect.Some? then UasPreConnect(false, rel.update)
                       else UasRingingRel(Rel(rel.ring.None?, if rel.ring.Some? then rel.ring.value.kind.body.Some? else rel.prackWait, None, None, None))) &&
            d.calls == (if Next(rel).Some? then CallbackAfter(Next(rel).value.kind) else []) &&
            d.u.media.remote == (if body.Some? then body else u.media.remote) &&
            d.u.media.local == (if Next(rel).Some? then Says(Next(rel).value.kind).body else u.media.local)
  {
    hide RecvEvent, Release;
    var v := Acknowledged(u);
    ReleasedExactly(u);
    assert Good(v);
    hide Good;
    if Next(u.st.rel).Some? {
      var e := Next(u.st.rel).value;
      EventSpoken(v, e, 0);
      EventRemembered(v, e, 0);
    }
    var d0 := Release(u);
    if u.st.rel.update.Some? { UpdateWaits(d0.u, u.st.rel.update.value, now); }
  }

  /** An update that comes while a PRACK or an ACK is awaited waits for it. */
  lemma UpdateWaits(u: Ua, e: CCEvent, now: int)
    requires e.kind.Update? && (u.st.UasRingingRel? || u.st.UasPreConnect?)
    ensures RecvEvent(u, e, now) ==
              Done(u.(st := if u.st.UasPreConnect? then UasPreConnect(u.st.confirm, Some(e)) else UasRingingRel(u.st.rel.(update := Some(e)))), [], [])
  {
  }

  // ---------------------------------------------------------------- events in an established call

  /** The answer to a re-INVITE: its failure is acknowledged like an answer and ends nothing, and the end of
      the call is told to the caller twice. */
  function SaysToUpdate(k: Kind): seq<Eff> {
    match k
    case Ring(code, body) => [if code == 0 then Respond(180, None, false) else Respond(code, body, false)]
    case PreConnect(code, body) => [Respond(code, body, true)]
    case Connect(code, body) => [Respond(code, body, true)]
    case Redirect(code, body) => [Respond(code, body, true)]
    case Fail(code) => [Respond(if code == 0 then 500 else code, None, true)]
    case Disconnect(_) => [Respond(487, None, false), SendRequest(BYE)]
    case _ => []
  }

  predicate UpdateSpoken(u: Ua, e: CCEvent, d: Done) {
    var k, says := e.kind, SaysToUpdate(e.kind);
    d.effs == says && d.u.q == u.q && d.calls == (if k.Disconnect? then [DiscCb] else []) &&
    d.u.st == (if k.Disconnect? then Disconnected else if Ends(k) || Answers(k) then UasPreConnect(k.PreConnect?, None) else UasUpdating) &&
    d.u.media.local == (if k.Ring? || Answers(k) then says[0].body else u.media.local) &&
    d.u.media.remote == (if k.Fail? then None else u.media.remote) &&
    (says != [] && says[0].code >= 200 ==> d.u.call.open == Answered) && (says == [] ==> d.u.call == u.call) &&
    (if k.Disconnect? then TimedEnd(u, e.rtime, d.u) else d.u.stamps == u.stamps)
  }

  lemma UpdateAnswerSpoken(u: Ua, e: CCEvent, now: int)
    requires Good(u) && u.st.UasUpdating?
    ensures UpdateSpoken(u, e, RecvEvent(u, e, now))
  {
    hide LimitsOk, QueueOk;
    match e.kind
    case Ring(_, _) =>
    case PreConnect(_, _) =>
    case Connect(_, _) =>
    case Disconnect(_) =>
    case _ =>
  }

  /** What an event does in an established call without a re-INVITE to answer: an end is passed on to the
      other side, with the address if it carries one; an ACK that waited for the answer goes out. */
  function PassedOn(u: Ua, k: Kind): seq<Eff> {
    var ack := if u.st.Connected? && u.call.pendingTr then [SendAck] else [];
    if Ends(k) then
      (if u.st.UacUpdating? then [CancelCall, SendRequest(BYE)]
       else [SendRequest(if (k.Redirect? || (k.Disconnect? && k.redirect)) && u.cfg.useRefer then REFER else BYE)]) + ack
    else if k.Info? then if u.st.UacUpdating? then [] else [SendRequest(INFO)]
    else if k.Connect? then ack
    else if k.Update? && u.st.Connected? && !SameOffer(u, k) && !NoHopLeft(k) then [SendRequest(INVITE)] + ack
    else []
  }

  predicate SameOffer(u: Ua, k: Kind) { k.Update? && k.body.Some? && u.media.local == k.body }

  predicate NoHopLeft(k: Kind) { k.Update? && k.maxForwards.Some? && k.maxForwards.value <= 0 }

  /** An update that asks for what there is, and one that may not be sent on, are answered at once. */
  function AnsweredAtOnce(u: Ua, k: Kind): seq<Kind> {
    if !u.st.Connected? || !k.Update? then []
    else if SameOffer(u, k) then [Connect(200, u.media.remote)]
    else if NoHopLeft(k) then [Fail(483)]
    else []
  }

  predicate IsPassedOn(u: Ua, e: CCEvent, d: Done) {
    var k := e.kind;
    var confirms := u.st.Connected? && k.Connect? && u.call.pendingTr;
    d.effs == PassedOn(u, k) && Tells(u, d.u, AnsweredAtOnce(u, k), e.rtime) &&
    d.calls == (if Ends(k) then [DiscCb] else if confirms then [ConnCb] else []) &&
    d.u.st == (if Ends(k) then Disconnected
               else if k.Update? && u.st.UasPreConnect? then UasPreConnect(u.st.confirm, Some(e))
               else if k.Update? && u.st.Connected? && AnsweredAtOnce(u, k) == [] then UacUpdating else u.st) &&
    d.u.media.remote == u.media.remote &&
    d.u.media.local == (if confirms then k.body else if d.u.st.UacUpdating? && k.Update? && u.st.Connected? then k.body else u.media.local) &&
    (d.u.media.late <==> u.media.late || (k.Update? && k.body.None? && u.st.Connected?)) &&
    (d.u.call.pendingTr <==> u.call.pendingTr && !(SendAck in d.effs)) &&
    (if Ends(k) then TimedEnd(u, e.rtime, d.u) else d.u.stamps.disconnect == u.stamps.disconnect) &&
    (if confirms then AnsweredAt(u, e.rtime, d.u) else d.u.stamps.connect == u.stamps.connect)
  }

  lemma ConnectedPassesUpdate(u: Ua, e: CCEvent)
    requires u.st.Connected? && e.kind.Update?
    ensures IsPassedOn(u, e, Settle(ConnectedEvent(u, e)))
  {
    CreatedOne(u.q.nextSeq, e.rtime);
    hide Created;
  }

  lemma ConnectedPassesEnd(u: Ua, e: CCEvent)
    requires u.st.Connected? && Ends(e.kind) && u.call.hooked
    ensures IsPassedOn(u, e, Settle(ConnectedEvent(u, e)))
  {
  }

  lemma ConnectedPassesOther(u: Ua, e: CCEvent)
    requires u.st.Connected? && !Ends(e.kind) && !e.kind.Update? && u.call.hooked
    ensures IsPassedOn(u, e, Settle(ConnectedEvent(u, e)))
  {
  }

  lemma ConnectedPassesOn(u: Ua, e: CCEvent, now: int)
    requires Good(u) && u.st.Connected?
    ensures IsPassedOn(u, e, RecvEvent(u, e, now))
  {
    if e.kind.Update? { ConnectedPassesUpdate(u, e); }
    else if Ends(e.kind) { ConnectedPassesEnd(u, e); }
    else { ConnectedPassesOther(u, e); }
    hide IsPassedOn, Settle, ConnectedEvent, LimitsOk, QueueOk;
  }

  lemma OthersPassOn(u: Ua, e: CCEvent, now: int)
    requires Good(u) && (u.st.UasPreConnect? || (u.st.UacUpdating? && !u.call.pendingTr))
    ensures IsPassedOn(u, e, RecvEvent(u, e, now))
  {
    CreatedOne(u.q.nextSeq, e.rtime);
    hide Created;
    hide LimitsOk, QueueOk;
    match e.kind
    case Update(_, _) =>
    case _ =>
  }

  // ---------------------------------------------------------------- events while a call goes out, and after

  /** The end of a call that goes out is a CANCEL, and nothing else does anything. */
  lemma CallingEnds(u: Ua, e: CCEvent, now: int)
    requires Good(u) && GoesOut(u.st)
    ensures var d := RecvEvent(u, e, now);
            if Ends(e.kind)
            then d.effs == [CancelCall] && d.u.st == UacCancelling(true) && d.calls == [DiscCb] && d.u.q == u.q &&
                 d.u.timers == NO_TIMERS && d.u.media == u.media && EndedAt(u, e.rtime, now, d.u) && d.u.stamps.connect == u.stamps.connect
            else d == Done(u, [], [])
  {
    hide LimitsOk, QueueOk;
  }

  lemma ClosedIgnores(u: Ua, e: CCEvent, now: int)
    requires Closing(u.st) || u.st.Dead?
    ensures RecvEvent(u, e, now) == Done(u, [], [])
  {
  }

  // ---------------------------------------------------------------- the beginning of a call

  /** The first timer is the shortest that is on: to a reply, to progress, or to the answer. */
  predicate FirstTimer(u: Ua, t: int, reply: bool) {
    var c := u.cfg;
    var ex := if c.expireTime > 0 then Some(t + c.expireTime) else None;
    var np := if c.noProgressTime > 0 && (c.expireTime <= 0 || c.noProgressTime < c.expireTime) then Some(t + c.noProgressTime) else None;
    var nr := if 0 < c.noReplyTime < 32000 && (c.expireTime <= 0 || c.noReplyTime < c.expireTime) &&
                 (c.noProgressTime <= 0 || c.noReplyTime < c.noProgressTime) && reply then Some(t + c.noReplyTime) else None;
    u.limits == Limits(nr, np, ex) &&
    u.timers == (if nr.Some? then SetupTimers(nr, None, None) else if np.Some? then SetupTimers(None, np, None) else SetupTimers(None, None, ex))
  }

  /** An attempt sends an INVITE with its body, or leaves the offer to the callee. */
  lemma AttemptBegins(u: Ua, e: CCEvent, now: int)
    requires Good(u) && u.st.NoState?
    ensures var d := RecvEvent(u, e, now);
            (e.kind.Try? ==>
               d.effs == [SendRequest(INVITE)] && d.calls == [] && d.u.st == UacTrying && d.u.q == u.q && d.u.call.origin == Callee &&
               d.u.media == Media(e.kind.body, u.media.remote, u.media.late || e.kind.body.None?) &&
               d.u.stamps == u.stamps.(setup := Some(e.rtime)) && FirstTimer(d.u, e.rtime, true)) &&
            (e.kind.Fail? || e.kind.Disconnect? ==>
               d.effs == [] && d.calls == [DiscCb] && d.u.st == Disconnected && d.u.q == u.q && d.u.stamps.disconnect.Some?) &&
            (!e.kind.Try? && !e.kind.Fail? && !e.kind.Disconnect? ==> d == Done(u, [], []))
  {
    hide QueueOk;
  }

  /** A first request: an INVITE is tried and passed on as an attempt, unless it asks for reliable
      provisional responses and has no body; with a body they are used if either side may. */
  lemma CallBegins(u: Ua, r: Req)
    requires Good(u) && u.st.NoState? && IsNewer(u, r)
    ensures var d := RecvRequest(u, r);
            if r.verb != INVITE then d.effs == [] && d.calls == [] && d.u.st.NoState? && d.u.q == u.q
            else if r.body.None? && r.requires100rel then d.effs == [RespondOwn(420)] && d.calls == [] && d.u.st.NoState? && d.u.q == u.q
            else
              d.effs == [RespondOwn(100)] && d.calls == [] && d.u.st == UasTrying && Tells(u, d.u, [Try(r.body)], r.rtime) &&
              d.u.call == Call(Caller, r.body.Some? && (r.requires100rel || r.supports100rel), u.call.pendingTr, FirstInvite, r.cseq, u.call.lastScode, u.call.hooked) &&
              d.u.media == u.media.(remote := r.body) && d.u.stamps == u.stamps.(setup := Some(r.rtime)) && FirstTimer(d.u, r.rtime, false)
  {
    CreatedOne(u.q.nextSeq, r.rtime);
    hide Created;
    hide QueueOk;
  }

  // ---------------------------------------------------------------- requests

  /** A request that is not newer than the last one is refused and does nothing. */
  lemma OldRequestRefused(u: Ua, r: Req)
    requires u.call.rCSeq != -1 && r.cseq <= u.call.rCSeq
    ensures RecvRequest(u, r) == Done(u, [RespondOwn(500)], [])
  {
  }

  predicate IsNewer(u: Ua, r: Req) { u.call.rCSeq == -1 || u.call.rCSeq < r.cseq }

  predicate SameSdp(u: Ua, r: Req) { r.body.Some? && u.media.remote == r.body }

  /** The end of a call by its other side: by BYE, or by a REFER that names another party. */
  predicate HungUp(s: State, r: Req) {
    match r.verb
    case BYE => Established(s) || s.UasRinging? || s.UasRingingRel?
    case REFER => (s.Connected? || s.UasPreConnect? || s.UasUpdating?) && r.referTo
    case _ => false
  }

  /** What the request itself is answered with. */
  function OwnReplies(u: Ua, r: Req): seq<int> {
    match u.st
    case Connected =>
      if r.verb == INVITE then if SameSdp(u, r) then [100, 200] else [100]
      else if r.verb == REFER then if r.referTo then [202] else [400]
      else if r.verb in {BYE, INFO, OPTIONS, UPDATE} then [200]
      else []
    case Disconnected => [if r.verb == BYE then 200 else 500]
    case UacUpdating => if r.verb == INVITE then [491] else if r.verb == BYE then [200] else []
    case UasUpdating => if r.verb == INVITE then [491] else if HungUp(u.st, r) then [487] else if r.verb == REFER then [400] else []
    case UasPreConnect(_, _) =>
      if r.verb == INVITE then [491] else if r.verb == BYE then [200] else if r.verb == REFER then if r.referTo then [487] else [400] else []
    case UasRinging => if r.verb == BYE then [487] else []
    case UasRingingRel(_) => if r.verb == BYE then [487] else []
    case _ => []
  }

  function Replies(codes: seq<int>): seq<Eff> { if codes == [] then [] else [RespondOwn(codes[0])] + Replies(codes[1..]) }

  lemma RepliesTo()
    ensures Replies([]) == []
    ensures forall c :: Replies([c]) == [RespondOwn(c)]
    ensures Replies([100, 200]) == [RespondOwn(100), RespondOwn(200)]
  {
    assert [100, 200][1..] == [200];
    forall c ensures Replies([c]) == [RespondOwn(c)] { assert [c][1..] == []; }
  }

  /** What the controller hears of a request. */
  function Reported(u: Ua, r: Req): seq<Kind> {
    if HungUp(u.st, r) then
      [Disconnect(if r.verb == REFER then true else if u.st.Connected? || CallerSide(u.st) then r.also else false)]
    else if !u.st.Connected? then []
    else if r.verb == INVITE && !SameSdp(u, r) then [Update(r.body, r.maxForwards)]
    else if r.verb == INFO then [Info(r.body)]
    else []
  }

  /** What else is sent. */
  function AlsoSent(u: Ua, r: Req): seq<Eff> {
    var ack := if u.st.Connected? && u.call.pendingTr && (HungUp(u.st, r) || (r.verb == INVITE && !SameSdp(u, r))) then [SendAck] else [];
    (if u.st.Connected? && HungUp(u.st, r) && r.verb == REFER then [SendRequest(BYE)] else []) + ack
  }

  predicate RequestDone(u: Ua, r: Req, d: Done) {
    var before := if u.st.UacUpdating? && r.verb == BYE then [CancelCall] else [];
    var reinvites := u.st.Connected? && r.verb == INVITE && !SameSdp(u, r);
    d.effs == before + Replies(OwnReplies(u, r)) + AlsoSent(u, r) && Tells(u, d.u, Reported(u, r), r.rtime) &&
    d.calls == (if HungUp(u.st, r) then [DiscCb] else []) &&
    d.u.st == (if HungUp(u.st, r) then Disconnected else if reinvites then UasUpdating else u.st) &&
    d.u.media == u.media.(remote := if reinvites then r.body else u.media.remote) &&
    d.u.call.rCSeq == r.cseq && d.u.call.open == (if reinvites then ReInvite else u.call.open) &&
    (if HungUp(u.st, r) then TimedEnd(u, r.rtime, d.u) else d.u.stamps == u.stamps)
  }

  lemma ConnectedInviteDone(u: Ua, r: Req)
    requires (HungUp(u.st, r) ==> u.call.hooked) && u.st.Connected? && r.verb == INVITE
    ensures RequestDone(u, r, Settle(HandleRequest(u.(call := u.call.(rCSeq := r.cseq)), r)))
  {
    CreatedOne(u.q.nextSeq, r.rtime);
    hide Created;
    RepliesTo();
    hide Replies;
  }

  lemma ConnectedReferDone(u: Ua, r: Req)
    requires (HungUp(u.st, r) ==> u.call.hooked) && u.st.Connected? && r.verb == REFER
    ensures RequestDone(u, r, Settle(HandleRequest(u.(call := u.call.(rCSeq := r.cseq)), r)))
  {
    CreatedOne(u.q.nextSeq, r.rtime);
    hide Created;
    RepliesTo();
    hide Replies;
  }

  lemma ConnectedByeDone(u: Ua, r: Req)
    requires (HungUp(u.st, r) ==> u.call.hooked) && u.st.Connected? && r.verb == BYE
    ensures RequestDone(u, r, Settle(HandleRequest(u.(call := u.call.(rCSeq := r.cseq)), r)))
  {
    CreatedOne(u.q.nextSeq, r.rtime);
    hide Created;
    RepliesTo();
    hide Replies;
  }

  lemma ConnectedRequestDone(u: Ua, r: Req)
    requires (HungUp(u.st, r) ==> u.call.hooked) && u.st.Connected? && r.verb !in {INVITE, REFER, BYE}
    ensures RequestDone(u, r, Settle(HandleRequest(u.(call := u.call.(rCSeq := r.cseq)), r)))
  {
    CreatedOne(u.q.nextSeq, r.rtime);
    hide Created;
    RepliesTo();
    hide Replies;
  }

  lemma AnsweredInviteDone(u: Ua, r: Req)
    requires (HungUp(u.st, r) ==> u.call.hooked) && (u.st.UasPreConnect? || u.st.UasUpdating?) && r.verb == INVITE
    ensures RequestDone(u, r, Settle(HandleRequest(u.(call := u.call.(rCSeq := r.cseq)), r)))
  {
    CreatedOne(u.q.nextSeq, r.rtime);
    hide Created;
    RepliesTo();
    hide Replies;
  }

  lemma AnsweredReferDone(u: Ua, r: Req)
    requires (HungUp(u.st, r) ==> u.call.hooked) && (u.st.UasPreConnect? || u.st.UasUpdating?) && r.verb == REFER
    ensures RequestDone(u, r, Settle(HandleRequest(u.(call := u.call.(rCSeq := r.cseq)), r)))
  {
    CreatedOne(u.q.nextSeq, r.rtime);
    hide Created;
    RepliesTo();
    hide Replies;
    if r.referTo { } else { }
  }

  lemma AnsweredByeDone(u: Ua, r: Req)
    requires (HungUp(u.st, r) ==> u.call.hooked) && (u.st.UasPreConnect? || u.st.UasUpdating?) && r.verb == BYE
    ensures RequestDone(u, r, Settle(HandleRequest(u.(call := u.call.(rCSeq := r.cseq)), r)))
  {
    CreatedOne(u.q.nextSeq, r.rtime);
    hide Created;
    RepliesTo();
    hide Replies;
  }

  lemma AnsweredRequestDone(u: Ua, r: Req)
    requires (HungUp(u.st, r) ==> u.call.hooked) && (u.st.UasPreConnect? || u.st.UasUpdating?) && r.verb !in {INVITE, REFER, BYE}
    ensures RequestDone(u, r, Settle(HandleRequest(u.(call := u.call.(rCSeq := r.cseq)), r)))
  {
    CreatedOne(u.q.nextSeq, r.rtime);
    hide Created;
    RepliesTo();
    hide Replies;
  }

  lemma OtherInviteDone(u: Ua, r: Req)
    requires (HungUp(u.st, r) ==> u.call.hooked) && !u.st.Connected? && !u.st.UasPreConnect? && !u.st.UasUpdating? && !u.st.NoState? && !u.st.UasIdle? && r.verb == INVITE
    ensures RequestDone(u, r, Settle(HandleRequest(u.(call := u.call.(rCSeq := r.cseq)), r)))
  {
    CreatedOne(u.q.nextSeq, r.rtime);
    hide Created;
    RepliesTo();
    hide Replies;
  }

  lemma OtherReferDone(u: Ua, r: Req)
    requires (HungUp(u.st, r) ==> u.call.hooked) && !u.st.Connected? && !u.st.UasPreConnect? && !u.st.UasUpdating? && !u.st.NoState? && !u.st.UasIdle? && r.verb == REFER
    ensures RequestDone(u, r, Settle(HandleRequest(u.(call := u.call.(rCSeq := r.cseq)), r)))
  {
    CreatedOne(u.q.nextSeq, r.rtime);
    hide Created;
    RepliesTo();
    hide Replies;
  }

  lemma OtherByeDone(u: Ua, r: Req)
    requires (HungUp(u.st, r) ==> u.call.hooked) && !u.st.Connected? && !u.st.UasPreConnect? && !u.st.UasUpdating? && !u.st.NoState? && !u.st.UasIdle? && r.verb == BYE
    ensures RequestDone(u, r, Settle(HandleRequest(u.(call := u.call.(rCSeq := r.cseq)), r)))
  {
    CreatedOne(u.q.nextSeq, r.rtime);
    hide Created;
    RepliesTo();
    hide Replies;
  }

  lemma OtherRequestDone(u: Ua, r: Req)
    requires (HungUp(u.st, r) ==> u.call.hooked) && !u.st.Connected? && !u.st.UasPreConnect? && !u.st.UasUpdating? && !u.st.NoState? && !u.st.UasIdle? && r.verb !in {INVITE, REFER, BYE}
    ensures RequestDone(u, r, Settle(HandleRequest(u.(call := u.call.(rCSeq := r.cseq)), r)))
  {
    CreatedOne(u.q.nextSeq, r.rtime);
    hide Created;
    RepliesTo();
    hide Replies;
  }

  /** For every request in a call: what it is answered with, what the controller hears of it, and what
      becomes of the call. */
  lemma RequestHandled(u: Ua, r: Req)
    requires Good(u) && !u.st.NoState? && IsNewer(u, r)
    ensures RequestDone(u, r, RecvRequest(u, r))
  {
    hide RequestDone, HandleRequest, Settle, LimitsOk, QueueOk;
    if u.st.Connected? {
      if r.verb == INVITE { ConnectedInviteDone(u, r); } else if r.verb == REFER { ConnectedReferDone(u, r); }
      else if r.verb == BYE { ConnectedByeDone(u, r); } else { ConnectedRequestDone(u, r); }
    } else if u.st.UasPreConnect? || u.st.UasUpdating? {
      if r.verb == INVITE { AnsweredInviteDone(u, r); } else if r.verb == REFER { AnsweredReferDone(u, r); }
      else if r.verb == BYE { AnsweredByeDone(u, r); } else { AnsweredRequestDone(u, r); }
    } else {
      if r.verb == INVITE { OtherInviteDone(u, r); } else if r.verb == REFER { OtherReferDone(u, r); }
      else if r.verb == BYE { OtherByeDone(u, r); } else { OtherRequestDone(u, r); }
    }
  }

  // ---------------------------------------------------------------- ACK, CANCEL and silence

  /** The ACK connects.  If it confirms the call, or a re-INVITE, it is passed on with its body before
      anything else. */
  lemma AckConnects(u: Ua, body: Option<Body>, rtime: int, now: int)
    requires Good(u) && u.st.UasPreConnect? && u.st.pendingUpdate.None? && u.q.equeue == []
    ensures var d := RecvAck(u, body, rtime, now);
            d.u.st == Connected && d.effs == [] && d.u.timers.expire.None? && d.u.call == u.call &&
            (if u.st.confirm
             then d.u.q.outbox == u.q.outbox + [CCEvent(u.q.nextSeq, Connect(0, body), rtime)] && d.calls == [ConnCb, ConnCb] &&
                  d.u.media == u.media.(remote := body) && AnsweredAt(u, rtime, d.u)
             else d.u.q == u.q && d.calls == [] && d.u.media == u.media && d.u.stamps == u.stamps)
  {
    if u.st.confirm { ConfirmStep(u, body, rtime); ConfirmHandsOver(u, body, rtime); }
    hide LimitsOk, QueueOk, SetConnectTs;
  }

  lemma ConfirmHandsOver(u: Ua, body: Option<Body>, rtime: int)
    requires Good(u) && u.st.UasPreConnect? && u.q.equeue == []
    ensures ConfirmConnect(u, body, rtime).u.q.outbox == u.q.outbox + [CCEvent(u.q.nextSeq, Connect(0, body), rtime)]
  {
    EmitKeeps(u, Confirmed(u, body, rtime).u, Event(u, Connect(0, body), rtime));
    hide QueueOk, LimitsOk, SetConnectTs;
  }

  /** An update that waited for the ACK comes right after it. */
  lemma AckThenUpdate(u: Ua, body: Option<Body>, rtime: int, now: int)
    requires u.st.UasPreConnect? && u.st.pendingUpdate.Some?
    ensures var d := RecvAck(u.(st := UasPreConnect(u.st.confirm, None)), body, rtime, now);
            RecvAck(u, body, rtime, now) == Then(d, RecvEvent(d.u, u.st.pendingUpdate.value, now))
  {
    hide RecvEvent;
    var v := u.(st := UasPreConnect(u.st.confirm, None));
    assert ConfirmConnect(u, body, rtime) == ConfirmConnect(v, body, rtime);
    assert ChangeState(u, Connected, None) == ChangeState(v, Connected, None);
    hide ConfirmConnect, ChangeState;
  }

  /** A CANCEL for an INVITE without a final response ends the call, and the controller hears of it at once. */
  lemma CancelHeard(u: Ua, now: int)
    requires Good(u) && u.call.open != Answered && u.q.equeue == [] && u.call.hooked
    ensures var d := RecvCancel(u, now);
            d.u.st == Disconnected && d.calls == [DiscCb] && d.u.call.open == Answered && TimedEnd(u, now, d.u) &&
            d.u.q.outbox == u.q.outbox + [CCEvent(u.q.nextSeq, Disconnect(false), now)] && d.u.media == u.media &&
            d.effs == (if u.call.open == ReInvite then [SendRequest(BYE)] else []) +
                      (if u.st.Connected? && u.call.pendingTr then [SendAck] else [])
  {
    EmitKeeps(u, Cancelled(u, now).u, Event(u, Disconnect(false), now));
    hide LimitsOk, QueueOk;
  }

  /** A time-out, or an ACK or PRACK that does not come, ends the call as a disconnect does, and the
      controller hears of it first. */
  lemma HangupHeard(u: Ua, now: int)
    requires Good(u) && u.call.hooked
    ensures var d := Hangup(u, now);
            HangingUp(u, now).q.equeue == u.q.equeue + [CCEvent(u.q.nextSeq, Disconnect(false), now)] &&
            HangingUp(u, now) == u.(q := HangingUp(u, now).q) && HangingUp(u, now).q.outbox == u.q.outbox &&
            d == RecvEvent(HangingUp(u, now), CCEvent(u.q.nextSeq + 1, Disconnect(false), now), now)
  {
    hide LimitsOk, QueueOk;
  }

  lemma TimeoutHeard(u: Ua, which: SetupTimer, now: int)
    requires Good(u) && Deadline(u.timers, which).Some?
    ensures SetupTimerFires(u, which, now) == Hangup(u.(timers := NO_TIMERS), now)
  {
    hide LimitsOk, QueueOk, Hangup;
  }

  /** The end of an agent. */
  lemma DeadIsSilent(u: Ua)
    requires Guard(u, GetDeadTimeout)
    ensures GoDead(u).effs == [] && GoDead(u).calls == [] && GoDead(u).u.st == Dead && GoDead(u).u.timers == NO_TIMERS &&
            !GoDead(u).u.call.hooked && GoDead(u).u.q == u.q
  {
  }

  // ---------------------------------------------------------------- and besides

  /** The user is asked for the ACK exactly when the answer to the offer has to come with it. */
  lemma AckIsLeftToUser(u: Ua, r: Resp, lastRseq: int, now: int)
    ensures HandleResponse(u, r, lastRseq, now).uack <==>
              (GoesOut(u.st) && !OutOfOrder(u, r, lastRseq) && Meaning(u, r).PreConnect?) ||
              (u.st.UacUpdating? && UpdateMeaning(u, r)[0].PreConnect?)
  {
    hide UacFinal, Enqueue;
  }

  /** The last code of the call: any of the first responses, and later those over 180. */
  lemma CodeRemembered(u: Ua, r: Resp, lastRseq: int, now: int)
    requires GoesOut(u.st)
    ensures RecvResponse(u, r, lastRseq, now).u.call.lastScode ==
              if u.st.UacTrying? || r.m.code > 180 then r.m.code else u.call.lastScode
  {
    hide UacFinal;
    if u.st.UacTrying? {
      var u1 := Escalate(u.(call := u.call.(lastScode := r.m.code)), r.m.code, r.rtime);
      FinalKeepsCode(CancelExpire(EscalateAgain(u1, r.m.code, r.rtime)), r, Pracks(r), r.m.code, now);
    } else {
      FinalKeepsCode(CancelExpire(if r.m.code > 180 then u.(call := u.call.(lastScode := r.m.code)) else u), r, [], 502, now);
    }
  }

  lemma FinalKeepsCode(u: Ua, r: Resp, effs: seq<Eff>, code: int, now: int)
    requires GoesOut(u.st)
    ensures Settle(UacFinal(u, r, effs, code, now)).u.call.lastScode == u.call.lastScode
  {
    hide SetConnectTs, EndSetup;
  }

  /** The emission loop hands over all that waits, in order. */
  lemma {:induction false} LoopHandsOver(u: Ua)
    requires Good(u) && u.call.hooked
    ensures EmitAll(u).q.outbox == Sent(u) && EmitAll(u).q.equeue == []
    decreases |u.q.equeue|
  {
    if u.q.equeue != [] {
      NextEventStep(u, 0);
      LoopHandsOver(EmitNext(u));
    } else {
      assert Sent(u) == u.q.outbox;
    }
    hide Good;
  }
}
