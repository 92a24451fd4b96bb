/** A run of the two legs that ends with one leg connected and the other disconnected: the callee's side
    sends a re-INVITE before the caller has acknowledged the answer to its offer, the caller's ACK is
    taken for the answer to that re-INVITE, and the real answer, a failure, ends the callee's leg. */
module HalfOpenCalls {
  import opened Messages
  import opened UaSpec
  import opened Relay

  const CFG: Config := Config(0, 0, 0, true, true)

  // The events the legs exchange.
  const ATTEMPT: CCEvent := CCEvent(1, Try(None), 0)
  const OFFER: CCEvent := CCEvent(2, PreConnect(200, Some(7)), 0)
  const UPDATED: CCEvent := CCEvent(3, Update(Some(8), None), 0)
  const ACKED: CCEvent := CCEvent(4, Connect(0, Some(9)), 0)
  const FAILED: CCEvent := CCEvent(5, Fail(500), 0)

  function Agent(st: State, q: Queue, stamps: Stamps, media: Media, call: Call): Ua {
    Ua(st, CFG, Limits(None, None, None), NO_TIMERS, q, stamps, media, call)
  }

  const SET_UP: Stamps := Stamps(Some(0), None, None, None)
  const ANSWERED: Stamps := Stamps(Some(0), Some(0), None, None)

  function CallerCall(open: Open): Call { Call(Caller, false, false, open, 1, 100, true) }

  function CalleeCall(pendingTr: bool, open: Open, rCSeq: int, lastScode: int): Call {
    Call(Callee, false, pendingTr, open, rCSeq, lastScode, true)
  }

  function Worlds(a: Ua, doneA: nat, o: Ua, doneO: nat, answered: bool): World {
    World(Leg(a, doneA), Some(Leg(o, doneO)), CFG, answered, answered, 0)
  }

  // The caller's agent, the numbers counting its states; `n` is the counter of events.
  function A1(): Ua { Agent(UasTrying, Queue([ATTEMPT], -1, [], 2), SET_UP, Media(None, None, false), CallerCall(FirstInvite)) }
  function A2(n: int): Ua { A1().(q := Queue([], 1, [ATTEMPT], n)) }
  function A3(n: int): Ua {
    A2(n).(st := UasPreConnect(true, None), media := Media(Some(7), None, false), call := CallerCall(Answered))
  }
  function A4(): Ua { A3(4).(st := UasPreConnect(true, Some(UPDATED))) }
  function A5(): Ua {
    Agent(UacUpdating, Queue([], 4, [ATTEMPT, ACKED], 5), ANSWERED, Media(Some(8), Some(9), false), CallerCall(Answered))
  }
  function A6(): Ua { A5().(st := Connected, media := Media(None, Some(9), false), q := Queue([FAILED], 4, [ATTEMPT, ACKED], 6)) }
  function A7(): Ua { A6().(q := Queue([], 5, [ATTEMPT, ACKED, FAILED], 6)) }

  // The callee's agent.
  function O1(): Ua {
    Agent(UacTrying, Queue([], -1, [], 2), SET_UP, Media(None, None, true), CalleeCall(false, Answered, -1, 100))
  }
  function O2(): Ua {
    Agent(Connected, Queue([OFFER], -1, [], 3), SET_UP, Media(None, Some(7), true), CalleeCall(true, Answered, -1, 200))
  }
  function O3(): Ua { O2().(q := Queue([], 2, [OFFER], 3)) }
  function O4(): Ua {
    Agent(UasUpdating, Queue([UPDATED], 2, [OFFER], 4), SET_UP, Media(None, Some(8), true), CalleeCall(false, ReInvite, 1, 200))
  }
  function O5(n: int): Ua { O4().(q := Queue([], 3, [OFFER, UPDATED], n)) }
  function O6(n: int): Ua { O5(n).(st := UasPreConnect(false, None), media := Media(Some(9), Some(8), true)) }
  function O7(): Ua { O6(6).(st := Disconnected, stamps := Stamps(Some(0), None, Some(0), None)) }

  const INVITE_IN: Req := Req(INVITE, 1, None, None, false, false, false, false, 0)
  const REINVITE_IN: Req := Req(INVITE, 1, Some(8), None, false, false, false, false, 0)
  const OK_IN: Resp := Resp(Response(200, 1, None, Some(7)), 0, 0)
  const ERROR_IN: Resp := Resp(Response(500, 1, None, None), 0, 0)

  /** One action leads from one world to another. */
  predicate Leads(w: World, act: Action, w': World) { Enabled(w, act) && Act(w, act, 0) == w' }

  // The worlds the run passes through.
  const W0: World := Initial(CFG, CFG, 1)
  const W1: World := World(Leg(A1(), 0), None, CFG, false, false, 0)
  const W2: World := W1.(a := Leg(A2(2), 0))
  const W3: World := Worlds(A2(2), 1, O1(), 0, false)
  const W4: World := Worlds(A2(3), 1, O2(), 0, true)
  const W5: World := Worlds(A2(3), 1, O3(), 0, true)
  const W6: World := Worlds(A3(3), 1, O3(), 1, true)
  const W7: World := Worlds(A3(4), 1, O4(), 1, true)
  const W8: World := Worlds(A3(4), 1, O5(4), 1, true)
  const W9: World := Worlds(A4(), 1, O5(4), 2, true)
  const W10: World := Worlds(A5(), 1, O5(5), 2, true)
  const W11: World := Worlds(A5(), 2, O6(5), 2, true)
  const W12: World := Worlds(A6(), 2, O6(6), 2, true)
  const W13: World := Worlds(A7(), 2, O6(6), 2, true)
  const W14: World := Worlds(A7(), 3, O7(), 2, true).(strays := 1)

  lemma CallerCalls()
    ensures Leads(W0, Outside(LegA, GetRequest(INVITE_IN)), W1)
  {
    var u := Step(W0.a.ua, GetRequest(INVITE_IN), 0).u;
    assert u.q == A1().q && u.media == A1().media && u.call == A1().call;
  }

  lemma AttemptEmitted()
    ensures Leads(W1, Emits(LegA), W2)
  {
    var u := EmitNext(A1());
    assert u.q == A2(2).q && u.media == A2(2).media && u.call == A2(2).call;
  }

  lemma CalleeCalled()
    ensures Leads(W2, Deliver(LegA), W3)
  {
  }

  lemma CalleeAnswers()
    ensures Leads(W3, Outside(LegO, GetResponse(OK_IN, 0)), W4)
  {
    var u := Step(O1(), GetResponse(OK_IN, 0), 0).u;
    assert u.q == O2().q && u.media == O2().media && u.call == O2().call;
  }

  lemma OfferEmitted()
    ensures Leads(W4, Emits(LegO), W5)
  {
    var u := EmitNext(O2());
    assert u.q == O3().q && u.media == O3().media && u.call == O3().call;
  }

  lemma OfferPassedOn()
    ensures Leads(W5, Deliver(LegO), W6)
  {
    var u := RecvEvent(A2(3), OFFER, 0).u;
    assert u.q == A3(3).q && u.media == A3(3).media && u.call == A3(3).call;
  }

  lemma CalleeReinvites()
    ensures Leads(W6, Outside(LegO, GetRequest(REINVITE_IN)), W7)
  {
    var u := Step(O3(), GetRequest(REINVITE_IN), 0).u;
    assert u.q == O4().q && u.media == O4().media && u.call == O4().call;
  }

  lemma UpdateEmitted()
    ensures Leads(W7, Emits(LegO), W8)
  {
    var u := EmitNext(O4());
    assert u.q == O5(4).q && u.media == O5(4).media && u.call == O5(4).call;
  }

  lemma UpdateWaits()
    ensures Leads(W8, Deliver(LegO), W9)
  {
    var u := RecvEvent(A3(4), UPDATED, 0).u;
    assert u.q == A4().q && u.media == A4().media && u.call == A4().call;
  }

  lemma CallerAcks()
    ensures Leads(W9, Outside(LegA, GetAck(Some(9), 0)), W10)
  {
    var u := Step(A4(), GetAck(Some(9), 0), 0).u;
    assert u.q == A5().q && u.media == A5().media && u.call == A5().call;
  }

  lemma AckTakenForAnswer()
    ensures Leads(W10, Deliver(LegA), W11)
  {
    var u := RecvEvent(O5(5), ACKED, 0).u;
    assert u.q == O6(5).q && u.media == O6(5).media && u.call == O6(5).call;
  }

  lemma CallerRefuses()
    ensures Leads(W11, Outside(LegA, GetResponse(ERROR_IN, 0)), W12)
  {
    var u := Step(A5(), GetResponse(ERROR_IN, 0), 0).u;
    assert u.q == A6().q && u.media == A6().media && u.call == A6().call;
  }

  lemma FailureEmitted()
    ensures Leads(W12, Emits(LegA), W13)
  {
    var u := EmitNext(A6());
    assert u.q == A7().q && u.media == A7().media && u.call == A7().call;
  }

  lemma FailureEndsCallee()
    ensures Leads(W13, Deliver(LegA), W14)
  {
    var u := RecvEvent(O6(6), FAILED, 0).u;
    assert u.q == O7().q && u.media == O7().media && u.call == O7().call;
  }

  ghost predicate Reaches(w: World, w': World) { exists acts :: Relay.Possible(w, acts) && Relay.Run(w, acts) == w' }

  lemma Stays(w: World)
    ensures Reaches(w, w)
  {
    assert Relay.Possible(w, []) && Relay.Run(w, []) == w;
  }

  lemma Onward(w: World, act: Action, w1: World, w': World)
    requires Leads(w, act, w1) && Reaches(w1, w')
    ensures Reaches(w, w')
  {
    var acts :| Relay.Possible(w1, acts) && Relay.Run(w1, acts) == w';
    var all := [Timed(act, 0)] + acts;
    assert all[1..] == acts;
    assert Relay.Possible(w, all) && Relay.Run(w, all) == w';
    hide Act, Enabled;
  }

  /** The run: the failure of one leg's re-INVITE ends the other leg, and the first stays in the call. */
  lemma RunReachesEnd()
    ensures Reaches(W0, W14)
  {
    hide Act, Enabled, Reaches;
    Stays(W14);
    FailureEndsCallee();
    Onward(W13, Deliver(LegA), W14, W14);
    FailureEmitted();
    Onward(W12, Emits(LegA), W13, W14);
    CallerRefuses();
    Onward(W11, Outside(LegA, GetResponse(ERROR_IN, 0)), W12, W14);
    AckTakenForAnswer();
    Onward(W10, Deliver(LegA), W11, W14);
    CallerAcks();
    Onward(W9, Outside(LegA, GetAck(Some(9), 0)), W10, W14);
    UpdateWaits();
    Onward(W8, Deliver(LegO), W9, W14);
    UpdateEmitted();
    Onward(W7, Emits(LegO), W8, W14);
    CalleeReinvites();
    Onward(W6, Outside(LegO, GetRequest(REINVITE_IN)), W7, W14);
    OfferPassedOn();
    Onward(W5, Deliver(LegO), W6, W14);
    OfferEmitted();
    Onward(W4, Emits(LegO), W5, W14);
    CalleeAnswers();
    Onward(W3, Outside(LegO, GetResponse(OK_IN, 0)), W4, W14);
    CalleeCalled();
    Onward(W2, Deliver(LegA), W3, W14);
    AttemptEmitted();
    Onward(W1, Emits(LegA), W2, W14);
    CallerCalls();
    Onward(W0, Outside(LegA, GetRequest(INVITE_IN)), W1, W14);
  }

  /** A run from the start that leaves nothing undone, with one leg connected and the other not. */
  lemma HalfOpenCallHappens()
    ensures exists acts ::
              Relay.Possible(Initial(CFG, CFG, 1), acts) &&
              var w := Relay.Run(Initial(CFG, CFG, 1), acts);
              Settled(w) && w.a.ua.st.Connected? && w.o.Some? && w.o.value.ua.st.Disconnected?
  {
    RunReachesEnd();
    var acts :| Relay.Possible(W0, acts) && Relay.Run(W0, acts) == W14;
    assert Settled(W14);
  }
}
