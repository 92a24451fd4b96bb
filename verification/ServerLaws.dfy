/** What a server transaction does for its user and its peer: every response leaves as it was given and
    numbered in turn, every request is answered, and every answered INVITE has its outcome. */
module ServerLaws {
  import opened Messages
  import opened ServerSpec
  import opened ServerProperties

  // ---------------------------------------------------------------- sending

  /** The response as it leaves: numbered if it is sent reliably, and with a To tag over 100. */
  predicate LeavesAs(s: Srv, r: Response, genTag: Token, sent: Response) {
    sent.code == r.code && sent.body == r.body &&
    sent.toTag == (if r.toTag == EMPTY && r.code > 100 then genTag else r.toTag) &&
    sent.rseq == (if s.rel.on && 100 < r.code < 200 then Some(s.rel.rseq) else r.rseq)
  }

  /** The identifier under which the PRACK for a response of this transaction comes. */
  predicate AsksForPrack(s: Srv, number: int, k: RTID) {
    k.callId == s.hdr.callId && k.fromTag == s.hdr.fromTag && k.rseq == number && k.cseq == s.hdr.cseq &&
    k.sipMethod == s.hdr.sipMethod
  }

  /** The PRACK timer starts for a response that is sent reliably while none is in flight. */
  predicate InFlightAfter(s: Srv, reliably: bool, now: int, s': Srv) {
    if reliably && s.rel.inflight.None? then
      s'.rel.inflight.Some? && AsksForPrack(s, s.rel.rseq, s'.rel.inflight.value.rtid) &&
      s'.rel.inflight.value.lastTimeout == 500 && s'.rel.inflight.value.deadline == now + 500
    else s'.rel.inflight == s.rel.inflight
  }

  predicate ResponseLeft(t: Tables, s: Srv, r: Response, wantAck: bool, genTag: Token, now: int, st: Step) {
    var s', reliably := st.s, s.rel.on && 100 < r.code < 200;
    |st.outs| == 1 && st.outs[0].Transmit? && st.outs[0].cause == FirstTime && LeavesAs(s, r, genTag, st.outs[0].resp) &&
    s'.data == Some(st.outs[0].resp) && s'.rel.on == s.rel.on && s'.rel.rseq == s.rel.rseq + (if reliably then 1 else 0) &&
    InFlightAfter(s, reliably, now, s') && s'.hdr == s.hdr &&
    (reliably ==> exists k :: AsksForPrack(s, s.rel.rseq, k) && k in st.t.rtid2tid && st.t.rtid2tid[k] == s.tid) &&
    (if r.code < 200 then s' == s.(state := Ringing, data := s'.data, rel := s'.rel)
     else if s.hdr.sipMethod == INVITE then
       s'.state == Completed && s'.live && s'.timers == Timers(Some(now + 500), Some(now + 32000), None) && s'.tout == 500 &&
       s'.cbs == s.cbs.(ack := wantAck)
     else !s'.live && s'.timers == Timers(None, None, None))
  }

  lemma EveryResponseLeaves(t: Tables, me: Id, s: Srv, r: Response, wantAck: bool, genTag: Token, now: int)
    requires Inv(s) && s.live && Unanswered(s)
    ensures ResponseLeft(t, s, r, wantAck, genTag, now, SendResponse(t, me, s, r, wantAck, genTag, now))
  {
    var k := RTID(s.hdr.callId, s.hdr.fromTag, s.rel.rseq, s.hdr.cseq, s.hdr.sipMethod);
    assert AsksForPrack(s, s.rel.rseq, k);
    if r.code < 200 {
      if SentReliably(s, Tagged(r, genTag)) { } else { }
    } else if s.hdr.sipMethod == INVITE {
    } else {
    }
  }

  // ---------------------------------------------------------------- requests

  /** What the cancellation of an INVITE puts out: a 487 with the To tag the request had, or a new one. */
  function Cancelled(s: Srv, genTag: Token): seq<Out> {
    [Transmit(Response(487, if s.hdr.toTag == EMPTY then genTag else s.hdr.toTag, None, None), FirstTime)] +
    if s.cbs.cancel then [CancelCb] else []
  }

  /** The PRACK that is waited for. */
  predicate PrackFor(s: Srv, req: Request) {
    req.rack.Some? && s.rel.inflight.Some? &&
    var k, a := s.rel.inflight.value.rtid, req.rack.value;
    k.callId == req.hdr.callId && k.fromTag == req.hdr.fromTag && k.rseq == a.rseq && k.cseq == a.cseq && k.sipMethod == a.sipMethod
  }

  /** What a live transaction puts out for a request that reached it. */
  function Answered(s: Srv, req: Request, genTag: Token): seq<Out> {
    if req.hdr.sipMethod == s.hdr.sipMethod then if s.data.Some? then [Transmit(s.data.value, Duplicate)] else []
    else match req.hdr.sipMethod
      case CANCEL =>
        [Reply(CANCEL, 200)] +
        (if s.state !in {Trying, Ringing} then [] else if s.hdr.sipMethod == INVITE then Cancelled(s, genTag)
         else if s.cbs.cancel then [CancelCb] else [])
      case ACK => if s.state == Completed && s.cbs.ack then [AckCb] else []
      case PRACK =>
        if req.rack.None? then []
        else if PrackFor(s, req) then (if s.cbs.prack then [PrackCb] else []) + [Reply(PRACK, 200)]
        else [Reply(PRACK, 481)]
      case _ => []
  }

  /** The end of a cancelled INVITE, as it is put out. */
  lemma CancellationPutsOut(t: Tables, me: Id, s: Srv, genTag: Token, now: int)
    requires s.live && Core(s) && Unanswered(s) && s.Invite()
    ensures DoCancel(t, me, s, genTag, now).outs == Cancelled(s, genTag)
  {
    assert Tagged(R487(s), genTag) == Response(487, if s.hdr.toTag == EMPTY then genTag else s.hdr.toTag, None, None);
  }

  lemma EveryRequestAnswered(t: Tables, me: Id, s: Srv, req: Request, genTag: Token, now: int)
    requires Inv(s) && s.live
    ensures IncomingRequest(t, me, s, req, genTag, now).outs == Answered(s, req, genTag)
  {
    if req.hdr.sipMethod != s.hdr.sipMethod && req.hdr.sipMethod == CANCEL && Unanswered(s) {
      if s.Invite() { CancellationPutsOut(t, me, s, genTag, now); }
      hide SendResponse, Cancelled;
    }
  }

  // ---------------------------------------------------------------- timers

  /** A new INVITE has its whole time to be answered, any other request none to keep. */
  lemma ExpiryFromCreation(h: Hdr, expires: int, now: int)
    ensures New(h, expires, now).timers == Timers(None, None, if h.sipMethod == INVITE then Some(now + expires) else None)
    ensures New(h, expires, now).tid == TID(h.callId, h.cseq, None, h.fromTag, EMPTY, if |h.branches| > 0 then h.branches[0] else EMPTY)
  {
  }

  /** Timer E cancels an INVITE that is not answered. */
  lemma ExpiryCancels(t: Tables, me: Id, s: Srv, genTag: Token, now: int)
    requires Inv(s) && s.timers.e.Some?
    ensures TimerE(t, me, s, genTag, now).outs == Cancelled(s, genTag)
  {
    CancellationPutsOut(t, me, s.(timers := s.timers.(e := None)), genTag, now);
    hide DoCancel;
  }

  /** Timer D tells that no ACK came, if none did, and ends the transaction. */
  lemma SilenceTold(t: Tables, s: Srv)
    requires Inv(s) && s.timers.d.Some?
    ensures TimerD(t, s).outs == (if s.state == Completed && s.cbs.noack then [NoAckCb] else []) && !TimerD(t, s).s.live
  {
  }

  /** The PRACK timer repeats the last response with twice the interval; after an interval over 16 s it
      gives up, and tells a user that still rings. */
  lemma PrackTimerActs(t: Tables, s: Srv, now: int)
    requires Inv(s) && s.rel.inflight.Some?
    ensures var st, f := TimerPrack(t, s, now), s.rel.inflight.value;
            if f.lastTimeout > 16000 then
              st.s == s.(rel := s.rel.(inflight := None)) && (s.live ==> f.rtid !in st.t.rtid2tid) &&
              st.outs == (if s.cbs.prack && s.state == Ringing then [NoPrackCb] else [])
            else
              st.t == t && st.s == s.(rel := s.rel.(inflight := Some(Inflight(f.rtid, 2 * f.lastTimeout, now + 2 * f.lastTimeout)))) &&
              st.outs == (if s.live then [Transmit(s.data.value, ByPrackTimer)] else [])
  {
  }

  // ---------------------------------------------------------------- the outcome of an answered INVITE

  function Outcomes(trace: seq<Log>): seq<Out> {
    if trace == [] then [] else (if IsOutcome(trace[0].out) then [trace[0].out] else []) + Outcomes(trace[1..])
  }

  lemma {:induction false} OutcomesConcat(a: seq<Log>, b: seq<Log>)
    ensures Outcomes(a + b) == Outcomes(a) + Outcomes(b)
  {
    if a == [] {
      assert a + b == b;
    } else {
      assert (a + b)[1..] == a[1..] + b;
      OutcomesConcat(a[1..], b);
    }
  }

  lemma {:induction false} NoOutcomes(tr: seq<Log>)
    requires forall i :: 0 <= i < |tr| ==> !IsOutcome(tr[i].out)
    ensures Outcomes(tr) == []
  {
    if tr != [] { NoOutcomes(tr[1..]); }
  }

  /** The ACK that reaches an answered transaction, or timer D. */
  predicate EndsWait(t: Tables, s: Srv, e: Event) {
    s.live && s.state == Completed && Enabled(t, s, e) && (e.input.FireD? || (e.input.Recv? && e.input.req.hdr.sipMethod == ACK))
  }

  /** What the user is told, if it asked. */
  function Told(s: Srv, e: Event): seq<Out> {
    if e.input.FireD? then if s.cbs.noack then [NoAckCb] else [] else if s.cbs.ack then [AckCb] else []
  }

  /** What the first event of a run that ends the wait tells. */
  function FirstOutcome(t: Tables, me: Id, s: Srv, evs: seq<Event>): seq<Out>
    requires Inv(s)
    decreases |evs|
  {
    if evs == [] then []
    else if EndsWait(t, s, evs[0]) then Told(s, evs[0])
    else
      ApplyKeepsInv(t, me, s, evs[0]);
      FirstOutcome(Apply(t, me, s, evs[0]).t, me, Apply(t, me, s, evs[0]).s, evs[1..])
  }

  lemma WaitEnds(t: Tables, me: Id, s: Srv, e: Event)
    requires Inv(s) && EndsWait(t, s, e)
    ensures var st := Apply(t, me, s, e); Settled(st.s) && Outcomes(Stamp(st.outs, e.at)) == Told(s, e)
  {
    if e.input.Recv? { EveryRequestAnswered(t, me, s, e.input.req, e.input.genTag, e.at); } else { SilenceTold(t, s); }
    var outs := Apply(t, me, s, e).outs;
    assert outs == Told(s, e) by {
      assert s.hdr.sipMethod == INVITE;
    }
    if outs != [] { assert Stamp(outs, e.at)[1..] == []; }
  }

  lemma WaitGoesOn(t: Tables, me: Id, s: Srv, e: Event)
    requires Inv(s) && !EndsWait(t, s, e)
    ensures Outcomes(Stamp(Apply(t, me, s, e).outs, e.at)) == []
  {
    ApplyKeepsInv(t, me, s, e);
    var st := Apply(t, me, s, e);
    var outcome := exists i :: 0 <= i < |st.outs| && IsOutcome(st.outs[i]);
    assert outcome ==> OutcomeStep(s, e, st);
    assert OutcomeStep(s, e, st) ==> EndsWait(t, s, e);
    NoOutcomes(Stamp(st.outs, e.at));
    hide Apply, Inv;
  }

  /** In every run the user hears of exactly the first outcome, if it asked to: of the ACK if that comes
      first, of its absence if timer D does, and of nothing while neither happens. */
  lemma {:induction false} ExactlyTheOutcome(t: Tables, me: Id, s: Srv, evs: seq<Event>)
    requires Inv(s)
    ensures Outcomes(Run(t, me, s, evs).trace) == FirstOutcome(t, me, s, evs)
    decreases |evs|
  {
    hide Inv, Apply, EndsWait;
    if evs != [] {
      var e, st := evs[0], Apply(t, me, s, evs[0]);
      ApplyKeepsInv(t, me, s, e);
      Unroll(t, me, s, evs);
      OutcomesConcat(Stamp(st.outs, e.at), Run(st.t, me, st.s, evs[1..]).trace);
      if EndsWait(t, s, e) {
        WaitEnds(t, me, s, e);
        AfterSettled(st.t, me, st.s, evs[1..]);
        NoOutcomes(Run(st.t, me, st.s, evs[1..]).trace);
      } else {
        WaitGoesOn(t, me, s, e);
        ExactlyTheOutcome(st.t, me, st.s, evs[1..]);
      }
    }
  }
}
