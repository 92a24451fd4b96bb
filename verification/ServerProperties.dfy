/** Whole-run properties of one server transaction: timer discipline, the ACK and no-ACK outcomes,
    and how often its responses are repeated. */
module ServerProperties {
  import opened Messages
  import opened ServerSpec

  datatype Input =
    | Send(resp: Response, wantAck: bool, genTag: Token)
    | Recv(req: Request, genTag: Token)
    | FireA | FireD | FireE | FirePrack
    | SetCallbacks(cancel: bool, noack: bool)
    | SetPrackCallbacks
    | Setup100rel

  datatype Event = Event(input: Input, at: int)

  datatype Log = Log(out: Out, at: int)

  datatype RunResult = RunResult(t: Tables, s: Srv, trace: seq<Log>)

  predicate Due(timer: Option<int>, now: int) { timer.Some? && timer.value <= now }

  /** The key under which the manager would have to find the transaction for `req` to reach it. */
  predicate Addressed(t: Tables, s: Srv, req: Request) {
    match req.hdr.sipMethod
    case ACK => s.tid == AckKey(req.hdr)
    case PRACK =>
      req.rack.Some? && RTIdOfRAck(req.hdr, req.rack.value) in t.rtid2tid &&
      t.rtid2tid[RTIdOfRAck(req.hdr, req.rack.value)] == s.tid
    case _ => s.tid == ServerKey(req.hdr)
  }

  /** Timers fire while armed and not early, requests arrive through the tables, and the user agent
      answers a transaction that is not finished (anything else is logged as a bug). */
  predicate Enabled(t: Tables, s: Srv, e: Event) {
    match e.input
    case Send(_, _, tag) => tag != EMPTY && Unanswered(s)
    case Recv(req, tag) => tag != EMPTY && Addressed(t, s, req)
    case FireA => Due(s.timers.a, e.at)
    case FireD => Due(s.timers.d, e.at)
    case FireE => Due(s.timers.e, e.at)
    case FirePrack => s.rel.inflight.Some? && s.rel.inflight.value.deadline <= e.at
    case _ => true
  }

  predicate OwnRtid(s: Srv, k: RTID) {
    1 <= k.rseq < s.rel.rseq && k == RTIdOf(s.hdr, k.rseq, s.hdr.sipMethod)
  }

  /** Which timers are armed, in both directions. */
  predicate TimersArmed(s: Srv) {
    && (s.timers.e.Some? <==> s.live && s.Invite() && Unanswered(s))
    && (s.timers.d.Some? <==> s.live && s.Invite() && !Unanswered(s))
    && (s.timers.a.Some? <==> s.live && s.Invite() && s.state == Completed)
  }

  predicate KeyedByToTag(s: Srv)
    requires s.data.Some?
  {
    s.tid.toTag != EMPTY && s.tid == Rekeyed(ServerKey(s.hdr), s.tid.toTag) && s.data.value.toTag == s.tid.toTag
  }

  /** What else holds of every reachable transaction. */
  predicate Core(s: Srv) {
    && (s.live && !s.Invite() ==> Unanswered(s))
    && (s.state != Trying ==> s.data.Some?)
    && (s.live && !Unanswered(s) ==> s.data.Some? && Final(s.data.value) && KeyedByToTag(s))
    && (s.live && Unanswered(s) ==> s.tid == ServerKey(s.hdr))
    && (s.rel.inflight.Some? ==> s.data.Some? && OwnRtid(s, s.rel.inflight.value.rtid))
    && (!s.live ==> s.cbs == NO_CALLBACKS)
    && 1 <= s.rel.rseq
  }

  predicate Inv(s: Srv) { TimersArmed(s) && Core(s) }

  /** The To tag that a 487 sent by timer E gets when the request had none. */
  const TIMER_TAG: Token := 1

  function Apply(t: Tables, me: Id, s: Srv, e: Event): Step
    requires Inv(s)
  {
    if !Enabled(t, s, e) then Step(t, s, [])
    else match e.input
      case Send(r, wantAck, tag) => SendResponse(t, me, s, r, wantAck, tag, e.at)
      case Recv(req, tag) => IncomingRequest(t, me, s, req, tag, e.at)
      case FireA => TimerA(t, s, e.at)
      case FireD => TimerD(t, s)
      case FireE => TimerE(t, me, s, TIMER_TAG, e.at)
      case FirePrack => TimerPrack(t, s, e.at)
      case SetCallbacks(c, n) => Step(t, if s.live then s.(cbs := s.cbs.(cancel := c, noack := n)) else s, [])
      case SetPrackCallbacks => Step(t, if s.live then s.(cbs := s.cbs.(prack := true)) else s, [])
      case Setup100rel => Step(t, s.(rel := s.rel.(on := true)), [])
  }

  lemma PrepareKeepsCore(t: Tables, s: Srv, r: Response, now: int)
    requires Core(s) && Unanswered(s)
    ensures
      var p := Prepare(t, s, r, now);
      && Core(p.s.(state := Ringing))
      && p.s == s.(rel := p.s.rel, data := Some(p.r))
      && p.r.code == r.code && p.r.toTag == r.toTag
  {
  }

  lemma DispatchKeepsInv(p: Prepared, me: Id, wantAck: bool, now: int)
    requires Core(p.s.(state := Ringing)) && p.s.data == Some(p.r) && p.s.live
    requires p.r.code >= 200 ==> p.r.toTag != EMPTY
    requires p.s.timers.a.None? && p.s.timers.d.None? && (p.r.code < 200 ==> TimersArmed(p.s) && Unanswered(p.s))
    requires !p.s.Invite() ==> p.s.timers.e.None?
    ensures Inv(Dispatch(p, me, wantAck, now).s)
  {
    if p.r.code < 200 {
      assert Inv(p.s.(state := Ringing));
    } else if p.s.Invite() {
      assert Inv(CompleteInvite(p.t, me, p.s, p.r, wantAck, now).s);
    } else {
      assert Inv(Cleanup(p.s.(state := Completed)));
    }
  }

  /** Timer E may already be off when a final response goes out. */
  predicate ReadyToSend(s: Srv) {
    Core(s) && Unanswered(s) && s.live && s.timers.a.None? && s.timers.d.None? &&
    (!s.Invite() ==> s.timers.e.None?)
  }

  lemma SendKeepsInv(t: Tables, me: Id, s: Srv, r: Response, wantAck: bool, tag: Token, now: int)
    requires ReadyToSend(s) && tag != EMPTY && (r.code < 200 ==> TimersArmed(s))
    ensures
      var st := SendResponse(t, me, s, r, wantAck, tag, now);
      Inv(st.s) && |st.outs| == 1 && st.outs[0].Transmit? && st.outs[0].cause == FirstTime
  {
    hide Core, Prepare;
    PrepareKeepsCore(t, s, Tagged(r, tag), now);
    DispatchKeepsInv(Prepare(t, s, Tagged(r, tag), now), me, wantAck, now);
  }

  /** An expiry or a CANCEL answers an INVITE with 487 and then tells the user agent. */
  lemma CancelKeepsInv(t: Tables, me: Id, s: Srv, tag: Token, now: int)
    requires ReadyToSend(s) && (s.Invite() || Inv(s)) && tag != EMPTY
    ensures
      var st := DoCancel(t, me, s, tag, now);
      Inv(st.s) && forall i :: 0 <= i < |st.outs| ==> !IsOutcome(st.outs[i])
  {
    hide Core, SendResponse;
    if s.Invite() { SendKeepsInv(t, me, s, R487(s), false, tag, now); }
  }

  lemma RecvKeepsInv(t: Tables, me: Id, s: Srv, e: Event)
    requires Inv(s) && s.live && e.input.Recv? && Enabled(t, s, e)
    ensures
      var st := Apply(t, me, s, e);
      Inv(st.s) && ((exists i :: 0 <= i < |st.outs| && IsOutcome(st.outs[i])) ==> OutcomeStep(s, e, st))
  {
    var tag := e.input.genTag;
    if Unanswered(s) {
      hide DoCancel;
      CancelKeepsInv(t, me, s, tag, e.at);
    } else if s.state == Completed {
    } else {
    }
  }

  lemma ApplyKeepsInv(t: Tables, me: Id, s: Srv, e: Event)
    requires Inv(s)
    ensures
      var st := Apply(t, me, s, e);
      && Inv(st.s)
      && ((exists i :: 0 <= i < |st.outs| && IsOutcome(st.outs[i])) ==> OutcomeStep(s, e, st))
  {
    if Enabled(t, s, e) && s.live {
      hide SendResponse, DoCancel, IncomingRequest;
      match e.input
      case Send(r, wantAck, tag) => SendKeepsInv(t, me, s, r, wantAck, tag, e.at);
      case Recv(_, _) => RecvKeepsInv(t, me, s, e);
      case FireE => CancelKeepsInv(t, me, s.(timers := s.timers.(e := None)), TIMER_TAG, e.at);
      case _ =>
    }
  }

  predicate IsOutcome(o: Out) { o == AckCb || o == NoAckCb }

  /** The ACK arrived, or the transaction is gone. */
  predicate Settled(s: Srv) { !s.live || s.state == Confirmed }

  /** Only an ACK or timer D, after a final response, produce an outcome, and they settle it. */
  predicate OutcomeStep(s: Srv, e: Event, st: Step) {
    && |st.outs| == 1 && Settled(st.s) && !Settled(s) && s.state == Completed
    && (st.outs[0] == AckCb ==> e.input.Recv? && e.input.req.hdr.sipMethod == ACK)
    && (st.outs[0] == NoAckCb ==> e.input == FireD && Due(s.timers.d, e.at) && !st.s.live)
  }

  lemma NewInv(h: Hdr, expires: int, now: int)
    ensures Inv(New(h, expires, now))
  {
  }

  function Stamp(outs: seq<Out>, at: int): (logs: seq<Log>)
    ensures |logs| == |outs|
  {
    seq(|outs|, i requires 0 <= i < |outs| => Log(outs[i], at))
  }

  function Run(t: Tables, me: Id, s: Srv, evs: seq<Event>): (r: RunResult)
    requires Inv(s)
    ensures Inv(r.s)
    decreases |evs|
  {
    if evs == [] then RunResult(t, s, [])
    else
      ApplyKeepsInv(t, me, s, evs[0]);
      var st := Apply(t, me, s, evs[0]);
      var rest := Run(st.t, me, st.s, evs[1..]);
      RunResult(rest.t, rest.s, Stamp(st.outs, evs[0].at) + rest.trace)
  }

  // ---------------------------------------------------------------- outcomes

  predicate QuietLog(l: Log, prackTimer: bool) {
    !IsOutcome(l.out) && (l.out.Transmit? ==> prackTimer && l.out.cause == ByPrackTimer)
  }

  lemma SettledStep(t: Tables, me: Id, s: Srv, e: Event)
    requires Inv(s) && Settled(s)
    ensures
      var st := Apply(t, me, s, e);
      && Settled(st.s)
      && (st.s.live ==> s.live)
      && (s.rel.inflight.None? ==> st.s.rel.inflight.None?)
      && (forall i :: 0 <= i < |st.outs| ==> QuietLog(Log(st.outs[i], e.at), s.live && s.rel.inflight.Some?))
  {
    if Enabled(t, s, e) && e.input.Recv? && s.live {
      assert s.tid.toTag != EMPTY;
    }
  }

  lemma DeadStep(t: Tables, me: Id, s: Srv, e: Event)
    requires Inv(s) && !s.live
    ensures var st := Apply(t, me, s, e); !st.s.live && st.outs == []
  {
  }

  /** Once cleaned up, a transaction puts out nothing whatever, in any run. */
  lemma {:induction false} AfterCleanup(t: Tables, me: Id, s: Srv, evs: seq<Event>)
    requires Inv(s) && !s.live
    ensures Run(t, me, s, evs).trace == []
    decreases |evs|
  {
    hide Inv, Apply;
    if evs != [] {
      DeadStep(t, me, s, evs[0]);
      ApplyKeepsInv(t, me, s, evs[0]);
      var st := Apply(t, me, s, evs[0]);
      AfterCleanup(st.t, me, st.s, evs[1..]);
    }
  }

  /** Once settled, whatever follows calls neither outcome callback and transmits nothing, except
      what the PRACK timer repeats while a provisional response is still unacknowledged and the
      transaction was not cleaned up. */
  lemma {:induction false} AfterSettled(t: Tables, me: Id, s: Srv, evs: seq<Event>)
    requires Inv(s) && Settled(s)
    ensures
      var r := Run(t, me, s, evs);
      && Settled(r.s)
      && (forall i :: 0 <= i < |r.trace| ==> QuietLog(r.trace[i], s.live && s.rel.inflight.Some?))
      && (!s.live ==> r.trace == [])
    decreases |evs|
  {
    hide Inv, Apply;
    if !s.live { AfterCleanup(t, me, s, evs); }
    if evs != [] {
      SettledStep(t, me, s, evs[0]);
      ApplyKeepsInv(t, me, s, evs[0]);
      var st := Apply(t, me, s, evs[0]);
      AfterSettled(st.t, me, st.s, evs[1..]);
    }
  }

  /** After an outcome there is neither another nor any transmission but the PRACK timer's, and after the
      no-ACK outcome there is nothing. */
  predicate OutcomeLast(tr: seq<Log>) {
    forall i, j :: 0 <= i < j < |tr| && IsOutcome(tr[i].out) ==>
      tr[i].out == AckCb && !IsOutcome(tr[j].out) && (tr[j].out.Transmit? ==> tr[j].out.cause == ByPrackTimer)
  }

  /** The ACK outcome and the no-ACK outcome exclude each other and each happens at most once, in
      every run; after the ACK nothing but the PRACK timer transmits, and the no-ACK outcome is the last
      thing the transaction ever puts out. */
  lemma {:induction false} ServerOutcome(t: Tables, me: Id, s: Srv, evs: seq<Event>)
    requires Inv(s)
    ensures OutcomeLast(Run(t, me, s, evs).trace)
    decreases |evs|
  {
    hide Inv, Apply;
    if evs != [] {
      ApplyKeepsInv(t, me, s, evs[0]);
      var st := Apply(t, me, s, evs[0]);
      var first, rest := Stamp(st.outs, evs[0].at), Run(st.t, me, st.s, evs[1..]).trace;
      ServerOutcome(st.t, me, st.s, evs[1..]);
      if Settled(st.s) { AfterSettled(st.t, me, st.s, evs[1..]); }
      if !st.s.live { AfterCleanup(st.t, me, st.s, evs[1..]); }
      if i :| 0 <= i < |first| && IsOutcome(first[i].out) {
        assert IsOutcome(st.outs[i]);
        assert |first| == 1 && (first[0].out == NoAckCb ==> rest == []);
        assert forall k :: 0 <= k < |rest| ==> QuietLog(rest[k], st.s.live && st.s.rel.inflight.Some?);
      }
      OutcomesJoin(first, rest);
    }
  }

  lemma OutcomesJoin(first: seq<Log>, rest: seq<Log>)
    requires OutcomeLast(rest)
    requires (exists i :: 0 <= i < |first| && IsOutcome(first[i].out)) ==>
      |first| == 1 && (first[0].out == NoAckCb ==> rest == []) && forall k :: 0 <= k < |rest| ==> QuietLog(rest[k], true)
    ensures OutcomeLast(first + rest)
  {
    var tr := first + rest;
    forall i, j | 0 <= i < j < |tr| && IsOutcome(tr[i].out)
      ensures tr[i].out == AckCb && !IsOutcome(tr[j].out) && (tr[j].out.Transmit? ==> tr[j].out.cause == ByPrackTimer)
    {
      if i < |first| {
        assert IsOutcome(first[i].out);
        assert QuietLog(rest[j - |first|], true);
      } else {
        assert tr[i] == rest[i - |first|] && tr[j] == rest[j - |first|];
      }
    }
  }

  lemma Unroll(t: Tables, me: Id, s: Srv, evs: seq<Event>)
    requires Inv(s) && evs != []
    ensures
      var st := Apply(t, me, s, evs[0]);
      Inv(st.s) && Run(t, me, s, evs).trace == Stamp(st.outs, evs[0].at) + Run(st.t, me, st.s, evs[1..]).trace
  {
    hide Apply, Inv;
    ApplyKeepsInv(t, me, s, evs[0]);
  }

  /** The PRACK timer repeats whatever was sent last, so with a provisional response unacknowledged
      it does repeat the final response after the ACK. */
  lemma FinalRepeatedAfterAck(t: Tables, me: Id, s: Srv, resp: Response)
    requires Inv(s) && s.live && s.state == Completed && s.cbs.ack && s.data == Some(resp)
    requires s.rel.inflight.Some? && s.rel.inflight.value.lastTimeout <= PRACK_GIVE_UP
    ensures
      var due := s.rel.inflight.value.deadline;
      exists evs :: Run(t, me, s, evs).trace == [Log(AckCb, due), Log(Transmit(resp, ByPrackTimer), due)]
  {
    var due := s.rel.inflight.value.deadline;
    var ack := Request(s.hdr.(sipMethod := ACK, toTag := s.tid.toTag), None, None);
    var evs := [Event(Recv(ack, 1), due), Event(FirePrack, due)];
    assert Addressed(t, s, ack);
    var st0 := Apply(t, me, s, evs[0]);
    assert st0.outs == [AckCb] && st0.s.live;
    ApplyKeepsInv(t, me, s, evs[0]);
    var st1 := Apply(st0.t, me, st0.s, evs[1]);
    assert st1.outs == [Transmit(resp, ByPrackTimer)];
    Unroll(t, me, s, evs);
    Unroll(st0.t, me, st0.s, evs[1..]);
    assert Run(t, me, s, evs).trace == [Log(AckCb, due), Log(Transmit(resp, ByPrackTimer), due)];
  }

  /** Exactly when an ACK leaves something that may still transmit: when a provisional response is
      unacknowledged as the ACK arrives.  Otherwise the transaction is gone at once. */
  lemma AckSettles(t: Tables, me: Id, s: Srv, e: Event)
    requires Inv(s) && s.live && s.state == Completed && Enabled(t, s, e)
    requires e.input.Recv? && e.input.req.hdr.sipMethod == ACK
    ensures
      var st := Apply(t, me, s, e);
      && Settled(st.s)
      && (st.s.live <==> s.rel.inflight.Some?)
      && st.s.rel.inflight == s.rel.inflight
      && (s.rel.inflight.None? ==> s.tid !in st.t.tserver)
  {
  }
}
