/** Whole runs of a user agent: phases, roles, callbacks, setup timers and the order of events. */
module UaRuns {
  import opened Messages
  import opened UaSpec
  import opened UaProperties
  import opened UaHandlers

  predicate HookOk(u: Ua) { (u.st.Dead? ==> !u.call.hooked) && (!u.call.hooked ==> u.st.Dead? || u.st.Disconnected?) }

  predicate Begun(s: State) { !s.NoState? && !s.UasIdle? && !s.UacIdle? }

  predicate Core(u: Ua) { TimersOk(u) && StampsOk(u.stamps) && QueueOk(u.q) && HookOk(u) && OpenOk(u) }

  /** The invariant of an agent between two inputs. */
  predicate Good(u: Ua) {
    Core(u) && InRole(u.call.origin, u.st) && TimersFit(u.st, u.timers) && !u.st.UasIdle? && !u.st.UacIdle?
  }

  lemma QueuesKeep(q: Queue, q': Queue)
    requires QueueOk(q) && Queues(q, q')
    ensures QueueOk(q') && Carries(q, q')
  {
    var s, s' := q.outbox + q.equeue, q'.outbox + q'.equeue;
    assert s' == s + q'.equeue[|q.equeue|..];
    forall k | |s| <= k < |s'| ensures s'[k].seqNo == q.nextSeq + k - |s| {
      assert s'[k] == q'.equeue[k - |q.outbox|];
    }
  }

  /** From one state of the agent to another, with the callbacks called in between. */
  predicate Goes(u: Ua, d: Done) {
    Good(d.u) && Allowed(u.st, d.u.st) && SameRole(u, d.u) && Carries(u.q, d.u.q) &&
    Endings(d.calls) == Leaves(u.st, d.u.st)
  }

  lemma ChangeStateTimers(u: Ua, s: State, cb: Option<Cb>)
    requires TimersOk(u) && !s.NoState? && (s.Dead? || TimersFit(s, if u.st.Connected? || u.st.UasPreConnect? then u.timers.(expire := None) else u.timers))
    ensures var d := ChangeState(u, s, cb); TimersOk(d.u) && TimersFit(d.u.st, d.u.timers) && Clears(u.timers, d.u.timers)
  {
  }

  lemma SettleTimers(r: Res)
    requires TimersOk(r.u) && NextTimersOk(r) && (r.next.Some? ==> !r.next.value.NoState?)
    ensures var d := Settle(r); TimersOk(d.u) && TimersFit(d.u.st, d.u.timers) && Clears(r.u.timers, d.u.timers)
  {
    if r.next.Some? { ChangeStateTimers(r.u, r.next.value, r.cb); }
  }

  lemma SettleRest(r: Res)
    ensures Settle(r).u.q == r.u.q && Settle(r).u.stamps == r.u.stamps && Settle(r).u.cfg == r.u.cfg
  {
  }

  lemma SettleState(u: Ua, r: Res)
    requires HookOk(u) && OpenOk(u) && InRole(u.call.origin, u.st) && NextOk(u, r) && !u.st.NoState? && (r.next.None? ==> Begun(u.st))
    ensures var d := Settle(r); Allowed(u.st, d.u.st) && SameRole(u, d.u) && HookOk(d.u)
    ensures InRole(Settle(r).u.call.origin, Settle(r).u.st)
    ensures OpenOk(Settle(r).u) && !Settle(r).u.st.UasIdle? && !Settle(r).u.st.UacIdle?
  {
  }

  lemma SettleCalls(u: Ua, r: Res)
    requires HookOk(u) && NextOk(u, r)
    ensures Endings(Settle(r).calls) == Leaves(u.st, Settle(r).u.st)
  {
    if r.next.Some? {
      EndingsAppend(Called(r.u, r.call), ChangeState(r.u, r.next.value, r.cb).calls);
    }
  }

  lemma SettleOk(u: Ua, r: Res)
    requires Core(u) && InRole(u.call.origin, u.st) && NextOk(u, r) && NextTimersOk(r) && Queues(u.q, r.u.q)
    requires TimersOk(r.u) && StampsOk(r.u.stamps) && !u.st.NoState? && (r.next.None? ==> Begun(u.st))
    ensures Goes(u, Settle(r)) && Clears(r.u.timers, Settle(r).u.timers)
  {
    QueuesKeep(u.q, r.u.q);
    SettleRest(r);
    SettleState(u, r);
    SettleCalls(u, r);
    SettleTimers(r);
    hide QueueOk, Queues, TimersOk, TimersFit, InRole, Allowed, Settle, NextOk, NextTimersOk, Endings, HookOk, OpenOk, Clears;
  }

  // ---------------------------------------------------------------- one input

  /** One step, with the time its setup timers count from. */
  predicate StepOk(u: Ua, d: Done, start: int) { Goes(u, d) && Escalates(u, d.u, start) }

  lemma HandlerStep(u: Ua, r: Res, start: int)
    requires Good(u) && !u.st.NoState? && HandlerOk(u, r, start)
    ensures StepOk(u, Settle(r), start) && (Clears(u.timers, r.u.timers) ==> Clears(u.timers, Settle(r).u.timers))
  {
    MovesKeepTimers(u, r.u, start);
    SettleOk(u, r);
    hide Goes, Settle, NextOk, NextTimersOk, Queues, QueueOk;
  }

  lemma StartStep(u: Ua, u1: Ua, r: Res)
    requires Good(u) && u.st.NoState? && Fresh(u1) && u1.q == u.q && u1.stamps == u.stamps && HookOk(u1) && OpenOk(u1)
    requires Starts(u1, r) && (u1.st.UasIdle? || u1.st.UacIdle?)
    ensures forall start :: StepOk(u, Settle(r), start)
  {
    SettleOk(u1, r);
  }

  lemma RequestStep(u: Ua, r: Req)
    requires Good(u)
    ensures StepOk(u, RecvRequest(u, r), r.rtime)
  {
    hide HandlerOk, Settle, Starts, QueueOk, UasIdleRequest, ConnectedRequest, PreConnectRequest, UasUpdatingRequest,
      UasRingingRequest, UacUpdatingRequest;
    var u1 := u.(call := u.call.(rCSeq := r.cseq));
    if !u.st.NoState? {
      RequestOk(u1, r);
      HandlerStep(u1, HandleRequest(u1, r), r.rtime);
    } else if r.verb == INVITE && !(r.body.None? && r.requires100rel) {
      var u2 := Activate(u1.(call := u1.call.(prRel := r.body.Some? && (r.requires100rel || r.supports100rel))), UasIdle);
      UasIdleOk(u2, r);
      StartStep(u, u2, UasIdleRequest(u2, r));
    }
  }

  lemma ResponseStep(u: Ua, r: Resp, lastRseq: int, now: int)
    requires Good(u)
    ensures StepOk(u, RecvResponse(u, r, lastRseq, now), r.rtime)
  {
    hide HandlerOk, Settle, QueueOk;
    hide UacTryingResponse, UacRingingResponse, UacUpdatingResponse, UacCancellingResponse;
    if !u.st.NoState? {
      ResponseOk(u, r, lastRseq, now);
      HandlerStep(u, HandleResponse(u, r, lastRseq, now).r, r.rtime);
    } else {
      NothingHappens(u, r.rtime);
    }
  }

  lemma NothingHappens(u: Ua, start: int)
    requires Good(u)
    ensures StepOk(u, Done(u, [], []), start) && Settle(Stay(u, [])) == Done(u, [], [])
  {
  }

  /** An event of the controller, or of the agent itself. */
  lemma EventStep(u: Ua, e: CCEvent, now: int)
    requires Good(u)
    ensures StepOk(u, RecvEvent(u, e, now), e.rtime)
    ensures !WaitsForReply(u.timers) && !u.st.NoState? ==> Clears(u.timers, RecvEvent(u, e, now).u.timers)
  {
    hide HandleEvent, Settle, Starts, QueueOk, UacIdleEvent;
    if !u.st.NoState? {
      EventOk(u, e, now);
      HandlerStep(u, HandleEvent(u, e, now), e.rtime);
    } else if e.kind.Try? || e.kind.Fail? || e.kind.Disconnect? {
      UacIdleOk(Activate(u, UacIdle), e, now);
      HandleIdle(Activate(u, UacIdle), e, now);
      StartStep(u, Activate(u, UacIdle), UacIdleEvent(Activate(u, UacIdle), e, now));
    }
  }

  lemma HandleIdle(u: Ua, e: CCEvent, now: int)
    requires u.st.UacIdle?
    ensures HandleEvent(u, e, now) == UacIdleEvent(u, e, now)
  {
  }

  // ---------------------------------------------------------------- one input after another

  lemma {:induction false} GoesThen(u: Ua, d1: Done, d2: Done)
    requires Good(u) && Goes(u, d1) && Goes(d1.u, d2)
    ensures Goes(u, Then(d1, d2))
  {
    EndingsAppend(d1.calls, d2.calls);
  }

  lemma ClearsEscalates(u: Ua, u': Ua, start: int)
    requires AtMostOneTimer(u.timers) && Clears(u.timers, u'.timers)
    ensures Escalates(u, u', start)
  {
  }

  lemma EnqueueKeeps(u: Ua, kind: Kind, rtime: int, more: int)
    requires Good(u) && 0 <= more
    ensures var u1 := Enqueue(u, kind, rtime); Good(u1.(q := u1.q.(nextSeq := u1.q.nextSeq + more))) && Carries(u.q, u1.q)
  {
    var u1 := Enqueue(u, kind, rtime);
    QueuesKeep(u.q, u1.q.(nextSeq := u1.q.nextSeq + more));
  }

  lemma HangupStep(u: Ua, now: int)
    requires Good(u)
    ensures StepOk(u, Hangup(u, now), now)
    ensures !WaitsForReply(u.timers) && !u.st.NoState? ==> Clears(u.timers, Hangup(u, now).u.timers)
  {
    hide RecvEvent;
    if u.call.hooked {
      EnqueueKeeps(u, Disconnect(false), now, 1);
      var u1 := Enqueue(u, Disconnect(false), now);
      EventStep(u1.(q := u1.q.(nextSeq := u1.q.nextSeq + 1)), Event(u1, Disconnect(false), now), now);
    } else {
      NothingHappens(u, now);
    }
    hide Good;
  }

  lemma TimeoutStep(u: Ua, which: SetupTimer, now: int)
    requires Good(u) && Deadline(u.timers, which).Some?
    ensures StepOk(u, SetupTimerFires(u, which, now), now)
  {
    hide Hangup;
    var u1 := match which case NoReply => CancelNoReply(u) case NoProgress => CancelNoProgress(u) case Expire => CancelExpire(u);
    HangupStep(u1, now);
    ClearsEscalates(u, Hangup(u1, now).u, now);
  }

  /** A CANCEL that finds the call over already. */
  function Late(u: Ua): nat { if !LiveState(u.st) && u.call.hooked then 1 else 0 }

  lemma AppendKeeps(s: seq<CCEvent>, e: CCEvent)
    requires Increasing(s) && Numbered(s, e.seqNo) && 1 <= e.seqNo
    ensures Increasing(s + [e]) && Numbered(s + [e], e.seqNo + 1)
  {
  }

  lemma EmitKeeps(u: Ua, u1: Ua, e: CCEvent)
    requires QueueOk(u.q) && u.q.equeue == [] && e.seqNo == u.q.nextSeq
    requires u1.q == u.q.(nextSeq := u.q.nextSeq + 1)
    ensures QueueOk(Emit(u1, e).q) && Carries(u.q, Emit(u1, e).q) && Emit(u1, e) == u1.(q := Emit(u1, e).q)
    ensures u1.call.hooked ==> Emit(u1, e).q.outbox == u.q.outbox + [e]
  {
    var s := u.q.outbox;
    assert s + [] == s && u.q.outbox + u.q.equeue == s && (s + [e]) + [] == s + [e];
    AppendKeeps(s, e);
    if s != [] { assert s[|s| - 1].seqNo < u.q.nextSeq; }
    hide Increasing, Numbered;
  }

  /** What `RecvCancel` does besides the event. */
  function Cancelled(u: Ua, now: int): Done {
    ChangeState(SetDisconnectTs(u.(call := u.call.(open := Answered), q := u.q.(nextSeq := u.q.nextSeq + 1)), now),
                Disconnected, Some(DiscCb))
  }

  lemma CancelledOk(u: Ua, now: int)
    requires Good(u) && u.call.open != Answered
    ensures var d := Cancelled(u, now).u; HookOk(d) && OpenOk(d) && d.st == Disconnected && SameRole(u, d) && StampsOk(d.stamps)
    ensures var d := Cancelled(u, now).u; TimersOk(d) && TimersFit(d.st, d.timers) && Clears(u.timers, d.timers)
    ensures Cancelled(u, now).u.q == u.q.(nextSeq := u.q.nextSeq + 1)
    ensures Endings(Cancelled(u, now).calls) == Leaves(u.st, Disconnected) + Late(u)
  {
    hide QueueOk, SetDisconnectTs;
  }

  lemma CancelStep(u: Ua, now: int)
    requires Good(u) && u.call.open != Answered && u.q.equeue == []
    ensures var d := RecvCancel(u, now); Good(d.u) && d.u.st == Disconnected && Carries(u.q, d.u.q) && SameRole(u, d.u)
    ensures Endings(RecvCancel(u, now).calls) == Leaves(u.st, Disconnected) + Late(u)
    ensures Escalates(u, RecvCancel(u, now).u, now)
  {
    CancelledOk(u, now);
    EmitKeeps(u, Cancelled(u, now).u, Event(u, Disconnect(false), now));
    ClearsEscalates(u, Cancelled(u, now).u, now);
    hide QueueOk, Emit, ChangeState, LimitsOk, Clears, Endings;
  }

  function Confirmed(u: Ua, body: Option<Body>, rtime: int): Done {
    ChangeState(SetRemote(SetConnectTs(CancelExpire(u.(q := u.q.(nextSeq := u.q.nextSeq + 1))), rtime), body), Connected,
                Some(ConnCb))
  }

  lemma ConfirmedOk(u: Ua, body: Option<Body>, rtime: int)
    requires Good(u) && u.st.UasPreConnect?
    ensures var d := Confirmed(u, body, rtime).u; HookOk(d) && OpenOk(d) && d.st == Connected && SameRole(u, d) && StampsOk(d.stamps)
    ensures var d := Confirmed(u, body, rtime).u; TimersOk(d) && d.timers == NO_TIMERS && InRole(d.call.origin, d.st)
    ensures Confirmed(u, body, rtime).u.q == u.q.(nextSeq := u.q.nextSeq + 1)
    ensures Endings(Called(u, Some(ConnCb)) + Confirmed(u, body, rtime).calls) == 0
  {
    hide QueueOk, SetConnectTs;
    EndingsAppend(Called(u, Some(ConnCb)), Confirmed(u, body, rtime).calls);
  }

  lemma ConfirmStep(u: Ua, body: Option<Body>, rtime: int)
    requires Good(u) && u.st.UasPreConnect? && u.q.equeue == []
    ensures var d := ConfirmConnect(u, body, rtime); Goes(u, d) && d.u.st == Connected && d.u.timers == NO_TIMERS
    ensures forall k :: |Sent(u)| <= k < |Sent(ConfirmConnect(u, body, rtime).u)| ==>
      Sent(ConfirmConnect(u, body, rtime).u)[k] == Event(u, Connect(0, body), rtime)
  {
    ConfirmedOk(u, body, rtime);
    EmitKeeps(u, Confirmed(u, body, rtime).u, Event(u, Connect(0, body), rtime));
    hide QueueOk, Emit, ChangeState, LimitsOk, Endings;
  }

  lemma ConnectedAt(u: Ua)
    requires Good(u) && u.st.UasPreConnect?
    ensures var d := ChangeState(u, Connected, None); Goes(u, d) && d.u.st == Connected && d.u.timers == NO_TIMERS
    ensures Sent(ChangeState(u, Connected, None).u) == Sent(u)
  {
    hide QueueOk;
  }

  lemma AckStep(u: Ua, body: Option<Body>, rtime: int, now: int)
    requires Good(u) && u.q.equeue == []
    ensures StepOk(u, RecvAck(u, body, rtime, now), now)
  {
    if u.st.UasPreConnect? {
      var d := if u.st.confirm then ConfirmConnect(u, body, rtime) else ChangeState(u, Connected, None);
      if u.st.confirm { ConfirmStep(u, body, rtime); } else { ConnectedAt(u); }
      hide RecvEvent, ConfirmConnect, ChangeState, QueueOk, LimitsOk;
      if u.st.pendingUpdate.Some? {
        EventStep(d.u, u.st.pendingUpdate.value, now);
        GoesThen(u, d, RecvEvent(d.u, u.st.pendingUpdate.value, now));
      }
    } else {
      NothingHappens(u, now);
    }
  }

  lemma ReleaseEvent(u: Ua, u0: Ua, e: CCEvent)
    requires Good(u) && u.st.UasRingingRel? && u0.st.UasRingingRel? && u0 == u.(st := u0.st)
    ensures Goes(u, Settle(RingingRelEvent(u0, e))) && Clears(u.timers, Settle(RingingRelEvent(u0, e)).u.timers)
  {
    RingingRelOk(u0, e);
    HandlerStep(u0, RingingRelEvent(u0, e), e.rtime);
    hide Settle, RingingRelEvent;
  }

  lemma ReleaseStep(u: Ua)
    requires Good(u) && u.st.UasRingingRel?
    ensures Goes(u, Release(u)) && Clears(u.timers, Release(u).u.timers) && !Release(u).u.st.NoState?
  {
    var rel := u.st.rel;
    var u0 := SetRel(u, rel.(prackReceived := true));
    if rel.connect.Some? {
      ReleaseEvent(u, u0, rel.connect.value);
    } else if rel.ring.Some? {
      ReleaseEvent(u, u0, rel.ring.value);
    }
    hide RingingRelEvent, Settle, QueueOk, LimitsOk;
  }

  lemma ForgetKeeps(u: Ua, d: Done, body: Option<Body>)
    requires Goes(u, d)
    ensures Goes(u, d.(u := Forget(d.u, body))) && Forget(d.u, body).timers == d.u.timers
  {
    hide QueueOk;
  }

  lemma PrackStep(u: Ua, body: Option<Body>, now: int)
    requires Good(u)
    ensures StepOk(u, RecvPrack(u, body, now), now)
  {
    if u.st.UasRingingRel? {
      var d0 := Release(u);
      ReleaseStep(u);
      hide Release, RecvEvent, QueueOk, LimitsOk, Forget;
      var update := u.st.rel.update;
      var d1 := if update.Some? then Then(d0, RecvEvent(d0.u, update.value, now)) else d0;
      if update.Some? {
        EventStep(d0.u, update.value, now);
        GoesThen(u, d0, RecvEvent(d0.u, update.value, now));
      }
      ForgetKeeps(u, d1, body);
      ClearsEscalates(u, Forget(d1.u, body), now);
    } else {
      NothingHappens(u, now);
    }
  }

  lemma DeadStep(u: Ua, now: int)
    requires Good(u) && Guard(u, GetDeadTimeout)
    ensures StepOk(u, GoDead(u), now)
  {
    hide QueueOk;
  }

  /** A turn of the loop hands the first waiting event over, and loses none. */
  lemma NextEventStep(u: Ua, now: int)
    requires Good(u) && Guard(u, NextEvent)
    ensures StepOk(u, Done(EmitNext(u), [], []), now)
    ensures Sent(EmitNext(u)) == Sent(u) && EmitNext(u).q.outbox == u.q.outbox + [u.q.equeue[0]]
  {
    var s, e := u.q.outbox, u.q.equeue[0];
    assert Sent(u)[|s|] == e && (s + [e]) + u.q.equeue[1..] == Sent(u);
    if s != [] { assert Sent(u)[|s| - 1].seqNo < Sent(u)[|s|].seqNo; }
    hide Increasing, Numbered, LimitsOk;
  }

  /** The time an expiry timer started by this input counts from. */
  function StartTime(i: Input, now: int): int {
    match i
    case GetRequest(r) => r.rtime
    case GetResponse(resp, _) => resp.rtime
    case GetEvent(e) => e.rtime
    case _ => now
  }

  function LateCancel(u: Ua, i: Input): nat { if i.GetCancel? then Late(u) else 0 }

  /** Only a CANCEL for an INVITE that was never answered brings a dead agent back. */
  predicate Revives(u: Ua, i: Input) { i.GetCancel? && u.st.Dead? }

  lemma StepKeeps(u: Ua, i: Input, now: int)
    requires Good(u) && Guard(u, i)
    ensures var d := Step(u, i, now); Good(d.u) && SameRole(u, d.u) && Carries(u.q, d.u.q)
    ensures Revives(u, i) || Allowed(u.st, Step(u, i, now).u.st)
    ensures Endings(Step(u, i, now).calls) == Leaves(u.st, Step(u, i, now).u.st) + LateCancel(u, i)
    ensures Escalates(u, Step(u, i, now).u, StartTime(i, now))
  {
    hide QueueOk, LimitsOk, RecvRequest, RecvResponse, RecvEvent, RecvCancel, RecvAck, RecvPrack, SetupTimerFires, Hangup,
      GoDead, EmitNext;
    match i
    case GetRequest(r) => RequestStep(u, r);
    case GetResponse(resp, lastRseq) => ResponseStep(u, resp, lastRseq, now);
    case GetEvent(e) => EventStep(u, e, now);
    case GetCancel => CancelStep(u, now);
    case GetAck(body, rtime) => AckStep(u, body, rtime, now);
    case GetPrack(body) => PrackStep(u, body, now);
    case GetTimeout(which) => TimeoutStep(u, which, now);
    case GetHangup => HangupStep(u, now);
    case GetDeadTimeout => DeadStep(u, now);
    case NextEvent => NextEventStep(u, now);
    case Elsewhere => ElsewhereStep(u, now);
  }

  lemma ElsewhereStep(u: Ua, now: int)
    requires Good(u)
    ensures StepOk(u, Step(u, Elsewhere, now), now)
  {
    QueuesKeep(u.q, u.q.(nextSeq := u.q.nextSeq + 1));
    hide QueueOk;
  }

  // ---------------------------------------------------------------- whole runs

  datatype Timed = Timed(i: Input, now: int)

  function After(u: Ua, t: Timed): Ua
    requires Guard(u, t.i)
  {
    Step(u, t.i, t.now).u
  }

  /** Inputs that can happen one after the other. */
  predicate Feasible(u: Ua, ins: seq<Timed>)
    decreases |ins|
  {
    ins == [] || (Guard(u, ins[0].i) && Feasible(After(u, ins[0]), ins[1..]))
  }

  function Run(u: Ua, ins: seq<Timed>): (end: Ua)
    requires Feasible(u, ins)
    decreases |ins|
  {
    if ins == [] then u else Run(After(u, ins[0]), ins[1..])
  }

  /** The callbacks of a run. */
  function Calls(u: Ua, ins: seq<Timed>): seq<Cb>
    requires Feasible(u, ins)
    decreases |ins|
  {
    if ins == [] then [] else Step(u, ins[0].i, ins[0].now).calls + Calls(After(u, ins[0]), ins[1..])
  }

  function LateCancels(u: Ua, ins: seq<Timed>): nat
    requires Feasible(u, ins)
    decreases |ins|
  {
    if ins == [] then 0 else LateCancel(u, ins[0].i) + LateCancels(After(u, ins[0]), ins[1..])
  }

  predicate NeverRevived(u: Ua, ins: seq<Timed>)
    requires Feasible(u, ins)
    decreases |ins|
  {
    ins == [] || (!Revives(u, ins[0].i) && NeverRevived(After(u, ins[0]), ins[1..]))
  }

  /** The invariant holds in every run: one setup timer at most, no call that ends before it was
      answered, no role that changes, and the events for the controller in the order they were
      created, none lost and none twice. */
  lemma {:induction false} RunKeeps(u: Ua, ins: seq<Timed>)
    requires Good(u) && Feasible(u, ins)
    ensures Good(Run(u, ins)) && SameRole(u, Run(u, ins)) && Carries(u.q, Run(u, ins).q)
    decreases |ins|
  {
    if ins != [] {
      StepKeeps(u, ins[0].i, ins[0].now);
      RunKeeps(After(u, ins[0]), ins[1..]);
      hide Good, Feasible, Run, Step;
    }
  }

  lemma NewIsGood(cfg: Config, nextSeq: int)
    requires 1 <= nextSeq
    ensures Good(New(cfg, nextSeq)) && Sent(New(cfg, nextSeq)) == []
  {
  }

  /** An agent at any point of any run: its role fits its state, no call ends before it was answered, and
      the events for the controller are numbered in strictly increasing order. */
  lemma EveryRun(cfg: Config, nextSeq: int, ins: seq<Timed>)
    requires 1 <= nextSeq && Feasible(New(cfg, nextSeq), ins)
    ensures var u := Run(New(cfg, nextSeq), ins);
            InRole(u.call.origin, u.st) && StampsOk(u.stamps) && Increasing(u.q.outbox + u.q.equeue)
  {
    NewIsGood(cfg, nextSeq);
    RunKeeps(New(cfg, nextSeq), ins);
    hide Feasible, Run, New;
  }

  /** At any point of any run at most one setup timer is armed, and the next input only replaces it by a
      later one in the order no-reply, no-progress, expiry, with a strictly later deadline. */
  lemma SetupTimersEscalate(cfg: Config, nextSeq: int, ins: seq<Timed>, i: Input, now: int)
    requires 1 <= nextSeq && Feasible(New(cfg, nextSeq), ins) && Guard(Run(New(cfg, nextSeq), ins), i)
    ensures var u := Run(New(cfg, nextSeq), ins);
            AtMostOneTimer(u.timers) && Escalates(u, Step(u, i, now).u, StartTime(i, now))
  {
    NewIsGood(cfg, nextSeq);
    RunKeeps(New(cfg, nextSeq), ins);
    StepKeeps(Run(New(cfg, nextSeq), ins), i, now);
    hide Feasible, Run, New, Step, Escalates, QueueOk;
  }

  /** A call that has left its live states never comes back to them. */
  lemma {:induction false} ClosedStaysClosed(u: Ua, ins: seq<Timed>)
    requires Good(u) && Feasible(u, ins) && !LiveState(u.st)
    ensures !LiveState(Run(u, ins).st)
    decreases |ins|
  {
    if ins != [] {
      StepKeeps(u, ins[0].i, ins[0].now);
      if Revives(u, ins[0].i) { CancelStep(u, ins[0].now); }
      ClosedStaysClosed(After(u, ins[0]), ins[1..]);
    }
  }

  /** Setup, established, closing, dead: a run that no CANCEL revives only goes forward. */
  lemma {:induction false} PhasesOnlyAdvance(u: Ua, ins: seq<Timed>)
    requires Good(u) && Feasible(u, ins) && NeverRevived(u, ins)
    ensures Allowed(u.st, Run(u, ins).st)
    decreases |ins|
  {
    if ins != [] {
      StepKeeps(u, ins[0].i, ins[0].now);
      PhasesOnlyAdvance(After(u, ins[0]), ins[1..]);
    }
  }

  /** The disconnect or failure callback is called once by a run that leaves the live states, and once
      more for each CANCEL that comes after that. */
  lemma {:induction false} EndCallbacks(u: Ua, ins: seq<Timed>)
    requires Good(u) && Feasible(u, ins)
    ensures Endings(Calls(u, ins)) == Leaves(u.st, Run(u, ins).st) + LateCancels(u, ins)
    decreases |ins|
  {
    if ins != [] {
      var d := Step(u, ins[0].i, ins[0].now);
      StepKeeps(u, ins[0].i, ins[0].now);
      hide Good, Guard, Step, Escalates, Allowed;
      EndCallbacks(d.u, ins[1..]);
      if !LiveState(d.u.st) { ClosedStaysClosed(d.u, ins[1..]); }
      EndingsAppend(d.calls, Calls(d.u, ins[1..]));
    }
  }

  /** A BYE while the INVITE rings, and a BYE or REFER while a re-INVITE waits for its answer, end the
      call and leave the INVITE open: a CANCEL that follows is late. */
  predicate EndsUnanswered(u: Ua, r: Req) {
    ((u.st.UasRinging? || u.st.UasRingingRel?) && r.verb == BYE) ||
    (u.st.UasUpdating? && (r.verb == BYE || (r.verb == REFER && r.referTo)))
  }

  lemma InviteStaysOpen(u: Ua, r: Req)
    requires Good(u) && u.q.equeue == [] && u.call.rCSeq < r.cseq && EndsUnanswered(u, r)
    ensures var d := RecvRequest(u, r); d.u.st == Disconnected && d.calls == [DiscCb] && |d.u.q.equeue| == 1
    ensures RecvRequest(u, r).u.call.open == u.call.open && RecvRequest(u, r).u.call.hooked
  {
    hide SetDisconnectTs, QueueOk, TimersOk, TimersFit;
  }

  lemma LateCancelCallsTwice(u: Ua, r: Req, now: int)
    requires Good(u) && u.q.equeue == [] && u.call.open != Answered && u.call.rCSeq < r.cseq && EndsUnanswered(u, r)
    ensures var d := RecvRequest(u, r); d.u.st == Disconnected && d.calls == [DiscCb] && Guard(d.u, NextEvent)
    ensures var u1 := EmitNext(RecvRequest(u, r).u); Guard(u1, GetCancel) && RecvCancel(u1, now).calls == [DiscCb]
  {
    InviteStaysOpen(u, r);
    hide SetDisconnectTs, RecvRequest, Good, EndsUnanswered;
  }
}
