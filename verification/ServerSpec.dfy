/** What each handler of a server transaction does to the transaction and to the two tables of the
    transaction manager that know it.  Times are milliseconds; a timer is its deadline. */
module ServerSpec {
  import opened Messages

  type Id = nat

  const T1: int := 500
  const TIMER_D: int := 32000
  const PRACK_GIVE_UP: int := 16000

  datatype TxState = Trying | Ringing | Completed | Confirmed

  /** The reliable provisional response that waits for its PRACK. */
  datatype Inflight = Inflight(rtid: RTID, lastTimeout: int, deadline: int)

  /** Deadlines of the timers A, D and E; a timer that is not armed has none. */
  datatype Timers = Timers(a: Option<int>, d: Option<int>, e: Option<int>)

  const NO_TIMERS: Timers := Timers(None, None, None)

  /** Which callbacks are set. */
  datatype Callbacks = Callbacks(ack: bool, noack: bool, cancel: bool, prack: bool)

  const NO_CALLBACKS: Callbacks := Callbacks(false, false, false, false)

  /** Reliable provisional responses: whether they are in use, the next RSeq, the unacknowledged one. */
  datatype Reliable = Reliable(on: bool, rseq: int, inflight: Option<Inflight>)

  datatype Srv = Srv(
    live: bool,             // sip_tm is still set
    hdr: Hdr, tid: TID, state: TxState,
    tout: int, timers: Timers, data: Option<Response>, rel: Reliable, cbs: Callbacks)
  {
    predicate Invite() { hdr.sipMethod == INVITE }
  }

  /** `tserver` and `rtid2tid`. */
  datatype Tables = Tables(tserver: map<TID, Id>, rtid2tid: map<RTID, TID>)

  datatype Cause = FirstTime | Duplicate | ByTimerA | ByPrackTimer

  datatype Out =
    | Transmit(resp: Response, cause: Cause)
    | Reply(verb: Method, code: int)
    | AckCb | NoAckCb | CancelCb | PrackCb | NoPrackCb

  datatype Prepared = Prepared(t: Tables, s: Srv, r: Response)

  datatype Step = Step(t: Tables, s: Srv, outs: seq<Out>)

  function New(h: Hdr, expires: int, now: int): Srv
  {
    Srv(true, h, ServerKey(h), Trying, T1,
        Timers(None, None, if h.sipMethod == INVITE then Some(now + expires) else None),
        None, Reliable(false, 1, None), NO_CALLBACKS)
  }

  function Cleanup(s: Srv): Srv {
    s.(live := false, timers := NO_TIMERS, cbs := NO_CALLBACKS)
  }

  function TserverDel(t: Tables, k: TID): Tables { t.(tserver := t.tserver - {k}) }

  function TserverReplace(t: Tables, old_: TID, new_: TID, me: Id): Tables {
    t.(tserver := (t.tserver - {old_})[new_ := me])
  }

  function RtidPut(t: Tables, k: RTID, v: TID): Tables { t.(rtid2tid := t.rtid2tid[k := v]) }

  function RtidDel(t: Tables, k: RTID): Tables { t.(rtid2tid := t.rtid2tid - {k}) }

  function RtidReplace(t: Tables, k: RTID, old_: TID, new_: TID): Tables {
    if k in t.rtid2tid && t.rtid2tid[k] == old_ then RtidPut(t, k, new_) else t
  }

  /** The To tag a response leaves with. */
  function Tagged(r: Response, genTag: Token): Response {
    if r.code > 100 && r.toTag == EMPTY then r.(toTag := genTag) else r
  }

  predicate SentReliably(s: Srv, r: Response) { s.rel.on && Provisional(r) }

  function NextRtid(s: Srv): RTID { RTIdOf(s.hdr, s.rel.rseq, s.hdr.sipMethod) }

  /** Numbering a reliable provisional response, starting its PRACK timer, and remembering the
      response for retransmission. */
  function Prepare(t: Tables, s: Srv, r: Response, now: int): Prepared {
    if !SentReliably(s, r) then Prepared(t, s.(data := Some(r)), r)
    else
      var numbered := r.(rseq := Some(s.rel.rseq));
      Prepared(RtidPut(t, NextRtid(s), ServerKey(s.hdr)),
               s.(rel := s.rel.(rseq := s.rel.rseq + 1, inflight := StartInflight(s, now)),
                  data := Some(numbered)),
               numbered)
  }

  function StartInflight(s: Srv, now: int): Option<Inflight> {
    if s.rel.inflight.None? then Some(Inflight(NextRtid(s), T1, now + T1)) else s.rel.inflight
  }

  function Rekeyed(k: TID, toTag: Token): TID { k.(branch := EMPTY, toTag := toTag) }

  /** A final response to an INVITE: wait for the ACK under the identifier that carries the To tag. */
  function CompleteInvite(t: Tables, me: Id, s: Srv, r: Response, ackCb: bool, now: int): Step {
    var newTid := Rekeyed(s.tid, r.toTag);
    var t1 := if s.rel.inflight.Some? then RtidReplace(t, s.rel.inflight.value.rtid, s.tid, newTid) else t;
    Step(TserverReplace(t1, s.tid, newTid, me),
         s.(state := Completed, cbs := s.cbs.(ack := ackCb), tid := newTid, tout := T1,
            timers := Timers(Some(now + T1), Some(now + TIMER_D), None)),
         [Transmit(r, FirstTime)])
  }

  function Dispatch(p: Prepared, me: Id, ackCb: bool, now: int): Step {
    if p.r.code < 200 then Step(p.t, p.s.(state := Ringing), [Transmit(p.r, FirstTime)])
    else if p.s.Invite() then CompleteInvite(p.t, me, p.s, p.r, ackCb, now)
    else Step(TserverDel(p.t, p.s.tid), Cleanup(p.s.(state := Completed)), [Transmit(p.r, FirstTime)])
  }

  function SendResponse(t: Tables, me: Id, s: Srv, resp: Response, ackCb: bool, genTag: Token, now: int): Step {
    if !s.live then Step(t, s, [])
    else Dispatch(Prepare(t, s, Tagged(resp, genTag), now), me, ackCb, now)
  }

  function R487(s: Srv): Response { Response(487, s.hdr.toTag, None, None) }

  function DoCancel(t: Tables, me: Id, s: Srv, genTag: Token, now: int): Step {
    var st := if s.Invite() then SendResponse(t, me, s, R487(s), false, genTag, now) else Step(t, s, []);
    Step(st.t, st.s, st.outs + if st.s.cbs.cancel then [CancelCb] else [])
  }

  predicate Unanswered(s: Srv) { s.state == Trying || s.state == Ringing }

  function RecvAck(t: Tables, s: Srv): Step {
    if s.state != Completed then Step(t, s, [])
    else
      var outs := if s.cbs.ack then [AckCb] else [];
      var s1 := s.(state := Confirmed, timers := s.timers.(a := None));
      if s.rel.inflight.None? then Step(TserverDel(t, s.tid), Cleanup(s1), outs)
      else Step(t, s1, outs)
  }

  predicate PrackMatches(s: Srv, req: Request) {
    req.rack.Some? && s.rel.inflight.Some? && s.rel.inflight.value.rtid == RTIdOfRAck(req.hdr, req.rack.value)
  }

  function RecvPrack(t: Tables, s: Srv, req: Request): Step {
    if req.rack.None? then Step(t, s, [])
    else if PrackMatches(s, req) then
      Step(RtidDel(t, s.rel.inflight.value.rtid), s.(rel := s.rel.(inflight := None)),
           (if s.cbs.prack then [PrackCb] else []) + [Reply(PRACK, 200)])
    else Step(t, s, [Reply(PRACK, 481)])
  }

  function IncomingRequest(t: Tables, me: Id, s: Srv, req: Request, genTag: Token, now: int): Step {
    if !s.live then Step(t, s, [])
    else if req.hdr.sipMethod == s.hdr.sipMethod then
      Step(t, s, if s.data.Some? then [Transmit(s.data.value, Duplicate)] else [])
    else if req.hdr.sipMethod == CANCEL then
      if Unanswered(s) then
        var st := DoCancel(t, me, s, genTag, now);
        Step(st.t, st.s, [Reply(CANCEL, 200)] + st.outs)
      else Step(t, s, [Reply(CANCEL, 200)])
    else if req.hdr.sipMethod == ACK then RecvAck(t, s)
    else if req.hdr.sipMethod == PRACK then RecvPrack(t, s, req)
    else Step(t, s, [])
  }

  function TimerA(t: Tables, s: Srv, now: int): Step
    requires s.live ==> s.data.Some?
  {
    if !s.live then Step(t, s, [])
    else Step(t, s.(tout := 2 * s.tout, timers := s.timers.(a := Some(now + 2 * s.tout))), [Transmit(s.data.value, ByTimerA)])
  }

  function TimerD(t: Tables, s: Srv): Step {
    if !s.live then Step(t, s, [])
    else Step(TserverDel(t, s.tid), Cleanup(s),
              if s.cbs.noack && s.state != Confirmed then [NoAckCb] else [])
  }

  function TimerE(t: Tables, me: Id, s: Srv, genTag: Token, now: int): Step {
    if !s.live then Step(t, s, [])
    else
      var s1 := s.(timers := s.timers.(e := None));
      if Unanswered(s) then DoCancel(t, me, s1, genTag, now) else Step(t, s1, [])
  }

  /** `retrUasResponse`. */
  function TimerPrack(t: Tables, s: Srv, now: int): Step
    requires s.rel.inflight.Some? && (s.live ==> s.data.Some?)
  {
    var f := s.rel.inflight.value;
    if f.lastTimeout > PRACK_GIVE_UP then
      Step(if s.live then RtidDel(t, f.rtid) else t, s.(rel := s.rel.(inflight := None)),
           if s.cbs.prack && s.state == Ringing then [NoPrackCb] else [])
    else
      Step(t, s.(rel := s.rel.(inflight := Some(f.(lastTimeout := 2 * f.lastTimeout, deadline := now + 2 * f.lastTimeout)))),
           if s.live then [Transmit(s.data.value, ByPrackTimer)] else [])
  }
}
