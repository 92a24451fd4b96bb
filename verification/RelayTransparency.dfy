/** What passes from the callee's leg to the caller's: every answer, and nothing but what was heard. */
module RelayTransparency {
  import opened Messages
  import opened UaSpec
  import opened UaProperties
  import opened UaRuns
  import opened UaReports
  import opened UaLaws
  import opened Relay

  /** The code and body of an answer. */
  datatype Answer = Answer(code: int, body: Option<Body>)

  predicate Is2xx(code: int) { 200 <= code < 300 }

  /** What the event would have the caller hear as a 2xx was heard from the callee. */
  predicate Sound(k: Kind, heard: set<Answer>) {
    Says(k).Speaks? && Is2xx(Says(k).code) ==> Answer(Says(k).code, Says(k).body) in heard
  }

  predicate AllSound(s: seq<CCEvent>, heard: set<Answer>) { forall k :: 0 <= k < |s| ==> Sound(s[k].kind, heard) }

  predicate AllTry(s: seq<CCEvent>) { forall k :: 0 <= k < |s| ==> s[k].kind.Try? }

  predicate HoldsSound(s: State, heard: set<Answer>) {
    s.UasRingingRel? ==>
      (s.rel.connect.Some? ==> s.rel.connect.value.kind.Connect? && Sound(s.rel.connect.value.kind, heard)) &&
      (s.rel.ring.Some? ==> s.rel.ring.value.kind.Ring? && s.rel.ring.value.kind.code > 100 && Sound(s.rel.ring.value.kind, heard))
  }

  /** A callee's leg that was told nothing but the attempt. */
  predicate Calm(s: State) { CalleeSide(s) || s.Connected? || s.UasUpdating? || s.Disconnected? || s.Failed? || s.Dead? }

  // ---------------------------------------------------------------- one step of the callee's leg

  /** The 2xx an input hands over. */
  function HeardIn(i: Input): set<Answer> {
    if i.GetResponse? && Is2xx(i.resp.m.code) then {Answer(i.resp.m.code, i.resp.m.body)} else {}
  }

  predicate StepSound(u: Ua, u': Ua, heard: set<Answer>) {
    Calm(u'.st) && Sent(u) <= Sent(u') && forall k :: |Sent(u)| <= k < |Sent(u')| ==> Sound(Sent(u')[k].kind, heard)
  }

  lemma TellsSound(u: Ua, u': Ua, kinds: seq<Kind>, rtime: int, heard: set<Answer>)
    requires Tells(u, u', kinds, rtime) && (forall k <- kinds :: Sound(k, heard)) && Calm(u'.st)
    ensures StepSound(u, u', heard)
  {
    CreatedKinds(u.q.nextSeq, kinds, rtime);
    var added := if kinds == [] then [] else Created(u.q.nextSeq, kinds, rtime);
    assert Sent(u') == Sent(u) + added;
    hide Created, Sound;
  }

  lemma CalmResponse(u: Ua, r: Resp, last: int, now: int)
    requires Good(u) && Calm(u.st)
    ensures StepSound(u, RecvResponse(u, r, last, now).u, HeardIn(GetResponse(r, last)))
  {
    hide RecvResponse, Good, Tells;
    var u' := RecvResponse(u, r, last, now).u;
    if GoesOut(u.st) {
      ResponseHeard(u, r, last, now);
      if !OutOfOrder(u, r, last) { TellsSound(u, u', [Meaning(u, r)], r.rtime, HeardIn(GetResponse(r, last))); }
    } else if u.st.UacCancelling? {
      LateAnswerHeard(u, r, last, now);
    } else {
      OtherResponsesQuiet(u, r, last, now);
    }
  }

  lemma CalmRequest(u: Ua, r: Req)
    requires Good(u) && Calm(u.st)
    ensures StepSound(u, RecvRequest(u, r).u, {})
  {
    hide RecvRequest, Good, Tells;
    if !IsNewer(u, r) {
      OldRequestRefused(u, r);
    } else {
      RequestHandled(u, r);
      TellsSound(u, RecvRequest(u, r).u, Reported(u, r), r.rtime, {});
    }
  }

  lemma SoundlyGrown(u: Ua, u': Ua, heard: set<Answer>)
    requires Calm(u'.st) && (Sent(u') == Sent(u) || exists e :: Sent(u') == Sent(u) + [e] && e.kind.Disconnect?)
    ensures StepSound(u, u', heard)
  {
  }

  /** The attempt does nothing to a leg that has begun, and a disconnect makes it tell nothing. */
  lemma CalmEvent(u: Ua, e: CCEvent, now: int)
    requires Good(u) && Calm(u.st) && (e.kind.Try? || e.kind.Disconnect?)
    ensures Calm(RecvEvent(u, e, now).u.st) && Sent(RecvEvent(u, e, now).u) == Sent(u)
  {
    hide RecvEvent, Good;
    if GoesOut(u.st) {
      CallingEnds(u, e, now);
    } else if u.st.Connected? {
      ConnectedPassesOn(u, e, now);
    } else if u.st.UasUpdating? {
      UpdateAnswerSpoken(u, e, now);
    } else {
      ClosedIgnores(u, e, now);
    }
  }

  lemma CalmHangup(u: Ua, now: int)
    requires Good(u) && Calm(u.st)
    ensures StepSound(u, Hangup(u, now).u, {})
  {
    if u.call.hooked {
      HangupHeard(u, now);
      HangingUpOk(u, now);
      CalmEvent(HangingUp(u, now), CCEvent(u.q.nextSeq + 1, Disconnect(false), now), now);
      hide Hangup, HangingUp, RecvEvent, Good;
      assert Sent(Hangup(u, now).u) == Sent(u) + [CCEvent(u.q.nextSeq, Disconnect(false), now)];
      SoundlyGrown(u, Hangup(u, now).u, {});
    }
  }

  lemma CalmCancel(u: Ua, now: int)
    requires Good(u) && Calm(u.st) && Guard(u, GetCancel)
    ensures StepSound(u, RecvCancel(u, now).u, {})
  {
    CancelStep(u, now);
    EmitKeeps(u, Cancelled(u, now).u, Event(u, Disconnect(false), now));
    var u' := RecvCancel(u, now).u;
    hide RecvCancel, Good, Cancelled, QueueOk, Escalates, Endings;
    SoundlyGrown(u, u', {});
  }

  lemma CalmTimeout(u: Ua, which: SetupTimer, now: int)
    requires Good(u) && Calm(u.st) && Guard(u, GetTimeout(which))
    ensures StepSound(u, SetupTimerFires(u, which, now).u, {})
  {
    TimeoutHeard(u, which, now);
    CalmHangup(u.(timers := NO_TIMERS), now);
    hide Hangup, SetupTimerFires;
  }

  /** Inputs that are neither requests, responses nor events. */
  lemma CalmOther(u: Ua, i: Input, now: int)
    requires Good(u) && Calm(u.st) && Guard(u, i) && !i.GetRequest? && !i.GetResponse? && !i.GetEvent?
    ensures StepSound(u, Step(u, i, now).u, {})
  {
    hide Good, Hangup, RecvCancel, SetupTimerFires, EmitNext;
    match i
    case GetCancel => CalmCancel(u, now);
    case GetHangup => CalmHangup(u, now);
    case GetTimeout(which) => CalmTimeout(u, which, now);
    case NextEvent => NextEventStep(u, now); EmitKeepsState(u);
    case _ =>
  }

  lemma EmitKeepsState(u: Ua)
    requires u.q.equeue != []
    ensures EmitNext(u).st == u.st
  {
  }

  lemma CalmStep(u: Ua, i: Input, now: int)
    requires Good(u) && Calm(u.st) && Guard(u, i) && (i.GetEvent? ==> i.e.kind.Try?)
    ensures StepSound(u, Step(u, i, now).u, HeardIn(i))
  {
    hide Good, Calm, RecvRequest, RecvResponse, RecvEvent, Sound;
    match i
    case GetRequest(r) => CalmRequest(u, r);
    case GetResponse(r, last) => CalmResponse(u, r, last, now);
    case GetEvent(e) => CalmEvent(u, e, now);
    case _ => CalmOther(u, i, now);
  }

  // ---------------------------------------------------------------- one step of the caller's leg

  /** A caller's leg that is still being set up has told its controller of the attempt and nothing else. */
  predicate Attempting(s: State) { s.NoState? || CallerSide(s) }

  predicate AttemptStep(u: Ua, u': Ua, heard: set<Answer>) {
    Sent(u) <= Sent(u') &&
    (Setup(u'.st) ==> Attempting(u'.st) && HoldsSound(u'.st, heard) && (ConnectWaits(u.st) ==> ConnectWaits(u'.st)) &&
                      forall k :: |Sent(u)| <= k < |Sent(u')| ==> Sent(u')[k].kind.Try?)
  }

  /** The 2xx that leave on the INVITE being answered. */
  predicate SpeaksSound(effs: seq<Eff>, heard: set<Answer>) {
    forall f <- effs :: f.Respond? && Is2xx(f.code) ==> Answer(f.code, f.body) in heard
  }

  predicate AttemptOk(u: Ua, d: Done, heard: set<Answer>) { AttemptStep(u, d.u, heard) && SpeaksSound(d.effs, heard) }

  lemma AttemptEvent(u: Ua, e: CCEvent, now: int, heard: set<Answer>)
    requires Good(u) && CallerSide(u.st) && HoldsSound(u.st, heard) && Sound(e.kind, heard)
    ensures AttemptOk(u, RecvEvent(u, e, now), heard)
  {
    hide RecvEvent, Good;
    if Held(u.st, e.kind) {
      EventHeld(u, e, now);
    } else {
      EventSpoken(u, e, now);
      if Says(e.kind).Silent? { SilentStays(u, e, now); }
    }
  }

  lemma SilentStays(u: Ua, e: CCEvent, now: int)
    requires Good(u) && CallerSide(u.st) && !Held(u.st, e.kind) && Says(e.kind).Silent?
    ensures var u' := RecvEvent(u, e, now).u;
            SameKindOfWait(u.st, u'.st)
  {
  }

  predicate SameKindOfWait(s: State, s': State) {
    if s.UasRingingRel? then s'.UasRingingRel? && s'.rel.connect == s.rel.connect && s'.rel.ring == s.rel.ring else s' == s
  }

  lemma AttemptRequest(u: Ua, r: Req, heard: set<Answer>)
    requires Good(u) && Attempting(u.st) && HoldsSound(u.st, heard)
    ensures AttemptOk(u, RecvRequest(u, r), heard)
  {
    hide RecvRequest, Good;
    if !IsNewer(u, r) {
      OldRequestRefused(u, r);
    } else if u.st.NoState? {
      CallBegins(u, r);
      CreatedOne(u.q.nextSeq, r.rtime);
      hide Created;
    } else {
      RequestHandled(u, r);
      RepliesTo();
      hide Replies;
    }
  }

  lemma AttemptPrack(u: Ua, body: Option<Body>, now: int, heard: set<Answer>)
    requires Good(u) && Attempting(u.st) && HoldsSound(u.st, heard) && PendingOk(u.st)
    ensures AttemptOk(u, RecvPrack(u, body, now), heard)
  {
    if u.st.UasRingingRel? { PrackLetsGo(u, body, now); }
    hide Good, PendingOk;
  }

  lemma AttemptHangup(u: Ua, now: int, heard: set<Answer>)
    requires Good(u) && CallerSide(u.st)
    ensures AttemptOk(u, Hangup(u, now), heard)
  {
    HangupHeard(u, now);
    HangingUpOk(u, now);
    EventSpoken(HangingUp(u, now), CCEvent(u.q.nextSeq + 1, Disconnect(false), now), now);
    hide Hangup, HangingUp, RecvEvent, Good;
  }

  lemma AttemptTimeout(u: Ua, which: SetupTimer, now: int, heard: set<Answer>)
    requires Good(u) && CallerSide(u.st) && Guard(u, GetTimeout(which))
    ensures AttemptOk(u, SetupTimerFires(u, which, now), heard)
  {
    TimeoutHeard(u, which, now);
    AttemptHangup(u.(timers := NO_TIMERS), now, heard);
    hide Hangup, SetupTimerFires;
  }

  lemma AttemptCancel(u: Ua, now: int, heard: set<Answer>)
    requires Good(u) && Attempting(u.st) && Guard(u, GetCancel)
    ensures AttemptOk(u, RecvCancel(u, now), heard)
  {
    CancelStep(u, now);
    CancelHeard(u, now);
    hide RecvCancel, Good, QueueOk, Escalates, Endings, TimedEnd;
  }

  lemma BeginsHooked(u: Ua, i: Input)
    requires Good(u) && Attempting(u.st) && Guard(u, i)
    ensures u.call.hooked && (u.st.NoState? ==> u.timers == NO_TIMERS && u.call.open == Answered && !i.GetTimeout? && !i.GetCancel?)
  {
  }

  lemma AttemptOther(u: Ua, i: Input, now: int, heard: set<Answer>)
    requires Good(u) && Attempting(u.st) && HoldsSound(u.st, heard) && PendingOk(u.st)
    requires Guard(u, i) && !i.GetEvent? && !i.GetRequest?
    ensures AttemptOk(u, Step(u, i, now), heard)
  {
    BeginsHooked(u, i);
    hide Good, Hangup, RecvCancel, SetupTimerFires, EmitNext, RecvResponse, RecvPrack;
    match i
    case GetResponse(r, last) => OtherResponsesQuiet(u, r, last, now);
    case GetCancel => AttemptCancel(u, now, heard);
    case GetHangup => if u.st.NoState? { NewHangup(u, now); } else { AttemptHangup(u, now, heard); }
    case GetTimeout(which) => AttemptTimeout(u, which, now, heard);
    case GetPrack(body) => AttemptPrack(u, body, now, heard);
    case NextEvent => NextEventStep(u, now); EmitKeepsState(u);
    case _ =>
  }

  lemma NewHangup(u: Ua, now: int)
    requires Good(u) && u.st.NoState? && u.call.hooked
    ensures var d := Hangup(u, now); d.effs == [] && d.u.st == Disconnected && Sent(u) <= Sent(d.u)
  {
    HangupHeard(u, now);
    HangingUpOk(u, now);
    AttemptBegins(HangingUp(u, now), CCEvent(u.q.nextSeq + 1, Disconnect(false), now), now);
    hide Hangup, HangingUp, RecvEvent, Good;
  }

  lemma AttemptActs(u: Ua, i: Input, now: int, heard: set<Answer>)
    requires Good(u) && Attempting(u.st) && HoldsSound(u.st, heard) && PendingOk(u.st) && Guard(u, i) && !i.GetEvent?
    ensures AttemptOk(u, Step(u, i, now), heard)
  {
    hide Good, AttemptOk, RecvRequest;
    if i.GetRequest? { AttemptRequest(u, i.r, heard); } else { AttemptOther(u, i, now, heard); }
  }

  // ---------------------------------------------------------------- the two legs

  /** What is sent on the caller's leg while the controller or the network acts. */
  function CallerSays(w: World, act: Action, now: int): seq<Eff>
    requires Relay.Enabled(w, act)
  {
    match act
    case Outside(side, i) => if side == LegA then Step(w.a.ua, i, now).effs else []
    case Emits(_) => []
    case Deliver(side) =>
      if side == LegO then RecvEvent(w.a.ua, The(w, side).ua.q.outbox[The(w, side).done], now).effs
      else if w.o.None? && !w.a.ua.q.outbox[w.a.done].kind.Try? then
        RecvEvent(Counting(w.a.ua, w.a.ua.q.nextSeq + 1),
                  CCEvent(w.a.ua.q.nextSeq, Disconnect(false), w.a.ua.q.outbox[w.a.done].rtime), now).effs
      else []
  }

  function HeardBy(act: Action): set<Answer> { if act.Outside? && act.side == LegO then HeardIn(act.i) else {} }

  /** While the caller's leg is being set up, all that passes between the legs is sound. */
  predicate Early(w: World, heard: set<Answer>) {
    Setup(w.a.ua.st) ==>
      Attempting(w.a.ua.st) && AllTry(Sent(w.a.ua)) && HoldsSound(w.a.ua.st, heard) &&
      (w.o.Some? ==> Calm(w.o.value.ua.st) && AllSound(Sent(w.o.value.ua), heard))
  }

  lemma MoreHeard(w: World, heard: set<Answer>, more: set<Answer>)
    requires Early(w, heard)
    ensures Early(w, heard + more)
  {
    hide Says, Calm;
  }

  lemma CallerEarly(w: World, u': Ua, heard: set<Answer>)
    requires Early(w, heard) && AttemptStep(w.a.ua, u', heard) && (Setup(u'.st) ==> Setup(w.a.ua.st))
    ensures Early(Put(w, LegA, u'), heard)
  {
    hide Sound, Calm, HoldsSound;
    if Setup(u'.st) {
      forall k | 0 <= k < |Sent(u')| ensures Sent(u')[k].kind.Try? {
        if k < |Sent(w.a.ua)| { assert Sent(u')[k] == Sent(w.a.ua)[k]; }
      }
      if w.o.Some? { assert Sent(Counting(w.o.value.ua, u'.q.nextSeq)) == Sent(w.o.value.ua); }
    }
  }

  lemma CalleeEarly(w: World, u': Ua, heard: set<Answer>)
    requires Early(w, heard) && w.o.Some? && (Setup(w.a.ua.st) ==> StepSound(w.o.value.ua, u', heard))
    ensures Early(Put(w, LegO, u'), heard)
  {
    hide Sound, Calm, HoldsSound;
    if Setup(w.a.ua.st) {
      assert Sent(Counting(w.a.ua, u'.q.nextSeq)) == Sent(w.a.ua);
      forall k | 0 <= k < |Sent(u')| ensures Sound(Sent(u')[k].kind, heard) {
        if k < |Sent(w.o.value.ua)| { assert Sent(u')[k] == Sent(w.o.value.ua)[k]; }
      }
    }
  }

  /** The agent of a leg of a world that meets the invariant. */
  lemma CallerAgent(w: World)
    requires Relay.Inv(w)
    ensures Good(w.a.ua) && PendingOk(w.a.ua.st) && (Setup(w.a.ua.st) ==> Attempting(w.a.ua.st)) && w.a.done <= |w.a.ua.q.outbox|
    ensures w.o.Some? ==> Good(w.o.value.ua) && w.o.value.done <= |w.o.value.ua.q.outbox| && !w.a.ua.st.NoState?
    ensures forall n :: w.a.ua.q.nextSeq <= n ==> Good(Counting(w.a.ua, n))
  {
    forall n | w.a.ua.q.nextSeq <= n ensures Good(Counting(w.a.ua, n)) { CountingKeeps(w.a, n); }
    hide Good, NotYet, Balanced, AttemptFirst, Marks;
  }

  /** What a leg has told is known to the other. */
  lemma ToldBy(u: Ua, k: nat)
    requires k < |u.q.outbox|
    ensures k < |Sent(u)| && Sent(u)[k] == u.q.outbox[k]
  {
  }

  lemma StaysClosed(u: Ua, i: Input, now: int)
    requires Good(u) && Guard(u, i) && !Setup(u.st)
    ensures !Setup(Step(u, i, now).u.st)
  {
    StepKeeps(u, i, now);
    if Revives(u, i) { CancelStep(u, now); }
    hide Step, Good, Escalates, Endings;
  }

  lemma OutsideEarly(w: World, side: Side, i: Input, now: int, heard: set<Answer>)
    requires Relay.Inv(w) && Relay.Enabled(w, Outside(side, i)) && Early(w, heard)
    ensures Early(Act(w, Outside(side, i), now), heard + HeardBy(Outside(side, i)))
    ensures CallerSide(w.a.ua.st) ==> SpeaksSound(CallerSays(w, Outside(side, i), now), heard)
  {
    var all := heard + HeardBy(Outside(side, i));
    var w1 := w.(answered := w.answered || IsAnswer(w, side, i));
    CallerAgent(w);
    MoreHeard(w1, heard, HeardBy(Outside(side, i)));
    hide Relay.Inv, Step, Good, HoldsSound, Guard;
    if side == LegA {
      if Setup(w.a.ua.st) { AttemptActs(w.a.ua, i, now, heard); } else { StaysClosed(w.a.ua, i, now); ClosedStep(w.a.ua, i, now, heard); }
      CallerEarly(w1, Step(w.a.ua, i, now).u, heard);
    } else {
      if Setup(w.a.ua.st) {
        CalmStep(w.o.value.ua, i, now);
        SoundMore(w.o.value.ua, Step(w.o.value.ua, i, now).u, HeardIn(i), all);
      }
      CalleeEarly(w1, Step(w.o.value.ua, i, now).u, all);
    }
  }

  lemma ClosedStep(u: Ua, i: Input, now: int, heard: set<Answer>)
    requires Good(u) && Guard(u, i) && !Setup(u.st)
    ensures AttemptStep(u, Step(u, i, now).u, heard)
  {
    StaysClosed(u, i, now);
    StepKeeps(u, i, now);
    hide Step, Good, Escalates, Endings;
  }

  lemma SoundMore(u: Ua, u': Ua, heard: set<Answer>, all: set<Answer>)
    requires StepSound(u, u', heard) && heard <= all
    ensures StepSound(u, u', all)
  {
    hide Calm, Says;
  }

  lemma EmitsEarly(w: World, side: Side, now: int, heard: set<Answer>)
    requires Relay.Inv(w) && Relay.Enabled(w, Emits(side)) && Early(w, heard)
    ensures Early(Act(w, Emits(side), now), heard)
  {
    CallerAgent(w);
    NextEventStep(The(w, side).ua, now);
    EmitKeepsState(The(w, side).ua);
    hide Good, EmitNext, Sound, HoldsSound, Calm, QueueOk;
    if side == LegA {
      CallerEarly(w, EmitNext(w.a.ua), heard);
    } else {
      CalleeEarly(w, EmitNext(w.o.value.ua), heard);
    }
  }

  /** From the callee's leg to the caller's. */
  lemma ToCallerEarly(w: World, now: int, heard: set<Answer>)
    requires Relay.Inv(w) && Relay.Enabled(w, Deliver(LegO)) && Early(w, heard)
    ensures Early(Act(w, Deliver(LegO), now), heard)
    ensures CallerSide(w.a.ua.st) ==> SpeaksSound(CallerSays(w, Deliver(LegO), now), heard)
  {
    var e := w.o.value.ua.q.outbox[w.o.value.done];
    CallerAgent(w);
    ToldBy(w.o.value.ua, w.o.value.done);
    hide Relay.Inv, RecvEvent, Good, HoldsSound;
    if Setup(w.a.ua.st) {
      AttemptEvent(w.a.ua, e, now, heard);
    } else {
      StaysClosed(w.a.ua, GetEvent(e), now);
      ClosedStep(w.a.ua, GetEvent(e), now, heard);
    }
    var w1 := Dealt(w.(strays := w.strays + if Stray(w, LegO, e) then 1 else 0), LegO);
    CallerEarly(w1, RecvEvent(w.a.ua, e, now).u, heard);
  }

  /** From the caller's leg to the callee's, which it may create. */
  lemma ToCalleeEarly(w: World, now: int, heard: set<Answer>)
    requires Relay.Inv(w) && Relay.Enabled(w, Deliver(LegA)) && Early(w, heard)
    ensures Early(Act(w, Deliver(LegA), now), heard)
    ensures CallerSide(w.a.ua.st) ==> SpeaksSound(CallerSays(w, Deliver(LegA), now), heard)
  {
    var e := w.a.ua.q.outbox[w.a.done];
    CallerAgent(w);
    ToldBy(w.a.ua, w.a.done);
    hide Relay.Inv, RecvEvent, Good, HoldsSound;
    var w1 := Dealt(w.(strays := w.strays + if Stray(w, LegA, e) then 1 else 0), LegA);
    if w.o.Some? {
      if Setup(w.a.ua.st) { CalmEvent(w.o.value.ua, e, now); }
      CalleeEarly(w1, RecvEvent(w.o.value.ua, e, now).u, heard);
    } else if e.kind.Try? {
      var o := New(w.cfgO, w.a.ua.q.nextSeq);
      NewCallee(w.cfgO, w.a.ua.q.nextSeq, e, now);
      CalleeStarts(w1, o, RecvEvent(o, e, now).u, heard);
    } else {
      var n := w.a.ua.q.nextSeq;
      var own := CCEvent(n, Disconnect(false), e.rtime);
      var u1 := Counting(w.a.ua, n + 1);
      StaysClosed(u1, GetEvent(own), now);
      ClosedStep(u1, GetEvent(own), now, heard);
      assert Sent(u1) == Sent(w.a.ua);
      CallerEarly(w1, RecvEvent(u1, own, now).u, heard);
    }
  }

  lemma NewCallee(cfg: Config, n: int, e: CCEvent, now: int)
    requires 1 <= n && e.kind.Try?
    ensures var u := RecvEvent(New(cfg, n), e, now).u; u.st == UacTrying && Sent(u) == []
  {
    NewIsGood(cfg, n);
    AttemptBegins(New(cfg, n), e, now);
    hide RecvEvent, Good;
  }

  lemma CalleeStarts(w: World, o: Ua, u': Ua, heard: set<Answer>)
    requires Early(w, heard) && w.o.None? && u'.st == UacTrying && Sent(u') == []
    ensures Early(Put(w.(o := Some(Leg(o, 0))), LegO, u'), heard)
  {
    assert Sent(Counting(w.a.ua, u'.q.nextSeq)) == Sent(w.a.ua);
    hide HoldsSound, Sound;
  }

  lemma ActEarly(w: World, act: Action, now: int, heard: set<Answer>)
    requires Relay.Inv(w) && Relay.Enabled(w, act) && Early(w, heard)
    ensures Early(Act(w, act, now), heard + HeardBy(act))
    ensures CallerSide(w.a.ua.st) ==> SpeaksSound(CallerSays(w, act, now), heard)
  {
    hide Relay.Inv, Early, Act;
    match act
    case Outside(side, i) => OutsideEarly(w, side, i, now, heard);
    case Emits(side) => EmitsEarly(w, side, now, heard); assert heard + HeardBy(act) == heard;
    case Deliver(side) =>
      assert heard + HeardBy(act) == heard;
      if side == LegO { ToCallerEarly(w, now, heard); } else { ToCalleeEarly(w, now, heard); }
  }

  // ---------------------------------------------------------------- whole runs

  function HeardSoFar(acts: seq<Relay.Timed>): set<Answer> {
    if acts == [] then {} else HeardBy(acts[0].act) + HeardSoFar(acts[1..])
  }

  lemma {:induction false} RunEarly(w: World, acts: seq<Relay.Timed>, heard: set<Answer>)
    requires Relay.Inv(w) && Early(w, heard) && Relay.Possible(w, acts)
    ensures Relay.Inv(Relay.Run(w, acts)) && Early(Relay.Run(w, acts), heard + HeardSoFar(acts))
    decreases |acts|
  {
    if acts != [] {
      ActKeepsInv(w, acts[0].act, acts[0].now);
      ActEarly(w, acts[0].act, acts[0].now, heard);
      RunEarly(Act(w, acts[0].act, acts[0].now), acts[1..], heard + HeardBy(acts[0].act));
      assert heard + HeardBy(acts[0].act) + HeardSoFar(acts[1..]) == heard + HeardSoFar(acts);
    } else {
      assert heard + {} == heard;
    }
    hide Relay.Inv, Act, Early;
  }

  /** The callee's leg was handed a 2xx with this code and body. */
  predicate HandsAnswer(t: Relay.Timed, x: Answer) {
    t.act.Outside? && t.act.side == LegO && t.act.i.GetResponse? && t.act.i.resp.m.code == x.code && t.act.i.resp.m.body == x.body
  }

  lemma {:induction false} HeardWasHanded(acts: seq<Relay.Timed>, x: Answer)
    requires x in HeardSoFar(acts)
    ensures exists k :: 0 <= k < |acts| && HandsAnswer(acts[k], x)
    decreases |acts|
  {
    if x in HeardBy(acts[0].act) {
      assert HandsAnswer(acts[0], x);
    } else {
      HeardWasHanded(acts[1..], x);
      var k :| 0 <= k < |acts[1..]| && HandsAnswer(acts[1..][k], x);
      assert HandsAnswer(acts[k + 1], x);
    }
  }

  /** In every run: a 2xx that answers the caller's INVITE has the code and the body of a 2xx that the
      callee's leg was handed before. */
  lemma AnswersAreHeard(cfgA: Config, cfgO: Config, nextSeq: int, acts: seq<Relay.Timed>, act: Action, now: int, f: Eff)
    requires 1 <= nextSeq && Relay.Possible(Initial(cfgA, cfgO, nextSeq), acts)
    ensures var w := Relay.Run(Initial(cfgA, cfgO, nextSeq), acts);
            Relay.Enabled(w, act) && CallerSide(w.a.ua.st) && f in CallerSays(w, act, now) && f.Respond? && Is2xx(f.code) ==>
              exists k :: 0 <= k < |acts| && HandsAnswer(acts[k], Answer(f.code, f.body))
  {
    var w0 := Initial(cfgA, cfgO, nextSeq);
    var w := Relay.Run(w0, acts);
    InitialInv(cfgA, cfgO, nextSeq);
    RunEarly(w0, acts, {});
    assert {} + HeardSoFar(acts) == HeardSoFar(acts);
    if Relay.Enabled(w, act) && CallerSide(w.a.ua.st) && f in CallerSays(w, act, now) && f.Respond? && Is2xx(f.code) {
      ActEarly(w, act, now, HeardSoFar(acts));
      HeardWasHanded(acts, Answer(f.code, f.body));
    }
    hide Relay.Inv, Relay.Run, Early, CallerSays, Act, Relay.Possible;
  }

  // ---------------------------------------------------------------- no answer is lost

  predicate HasAnswer(s: seq<CCEvent>) { exists k :: 0 <= k < |s| && Answers(s[k].kind) }

  /** Once the callee's leg is established, the caller's is too, or holds the answer until a PRACK, or the
      answer is on its way. */
  predicate Underway(w: World) {
    w.established && Setup(w.a.ua.st) && w.o.Some? && w.o.value.done <= |w.o.value.ua.q.outbox| ==>
      ConnectWaits(w.a.ua.st) || HasAnswer(Coming(w.o.value))
  }

  lemma PrefixHasAnswer(s: seq<CCEvent>, s': seq<CCEvent>)
    requires s <= s' && HasAnswer(s)
    ensures HasAnswer(s')
  {
    var k :| 0 <= k < |s| && Answers(s[k].kind);
    assert Answers(s'[k].kind);
  }

  lemma ComingGrows(l: Leg, u': Ua)
    requires l.done <= |l.ua.q.outbox| <= |u'.q.outbox| && Sent(l.ua) <= Sent(u')
    ensures Coming(l) <= Coming(l.(ua := u'))
  {
    assert Sent(u')[l.done..][..|Coming(l)|] == Coming(l);
  }

  /** A leg that becomes established announces an answer. */
  lemma AnswerAnnounced(l: Leg, i: Input, now: int)
    requires Good(l.ua) && Calm(l.ua.st) && Guard(l.ua, i) && (i.GetEvent? ==> i.e.kind.Try?)
    requires l.done <= |l.ua.q.outbox| && !Established(l.ua.st) && Established(Step(l.ua, i, now).u.st)
    ensures l.done <= |Step(l.ua, i, now).u.q.outbox| && HasAnswer(Coming(l.(ua := Step(l.ua, i, now).u)))
  {
    var u, u' := l.ua, Step(l.ua, i, now).u;
    StepKeeps(u, i, now);
    if i.GetResponse? && GoesOut(u.st) {
      ResponseHeard(u, i.resp, i.lastRseq, now);
      AnnouncedLast(l, u', Meaning(u, i.resp), i.resp.rtime);
    } else {
      NotByOthers(u, i, now);
    }
    hide Good, Step, Escalates, Endings, Created, Tells, HasAnswer, Sent;
  }

  lemma AnnouncedLast(l: Leg, u': Ua, k: Kind, rtime: int)
    requires l.done <= |l.ua.q.outbox| && Tells(l.ua, u', [k], rtime) && Answers(k)
    ensures l.done <= |u'.q.outbox| && HasAnswer(Coming(l.(ua := u')))
  {
    var u := l.ua;
    CreatedOne(u.q.nextSeq, rtime);
    hide Created;
    assert Sent(u') == Sent(u) + [CCEvent(u.q.nextSeq, k, rtime)];
    assert Coming(l.(ua := u'))[|Sent(u)| - l.done] == Sent(u')[|Sent(u)|];
  }

  lemma NotByOthers(u: Ua, i: Input, now: int)
    requires Good(u) && Calm(u.st) && Guard(u, i) && (i.GetEvent? ==> i.e.kind.Try?) && !Established(u.st)
    requires !(i.GetResponse? && GoesOut(u.st))
    ensures !Established(Step(u, i, now).u.st)
  {
    hide Good, RecvRequest, RecvResponse, RecvEvent, Hangup, RecvCancel, SetupTimerFires, EmitNext;
    match i
    case GetRequest(r) => if IsNewer(u, r) { RequestHandled(u, r); } else { OldRequestRefused(u, r); }
    case GetResponse(r, last) => if u.st.UacCancelling? { LateAnswerHeard(u, r, last, now); } else { OtherResponsesQuiet(u, r, last, now); }
    case GetEvent(e) => if GoesOut(u.st) { CallingEnds(u, e, now); } else { ClosedIgnores(u, e, now); }
    case GetCancel => CancelStep(u, now);
    case GetHangup => HangupEnds(u, now);
    case GetTimeout(which) => TimeoutEnds(u, which, now);
    case NextEvent => EmitKeepsState(u);
    case _ =>
  }

  lemma HangupEnds(u: Ua, now: int)
    requires Good(u) && Calm(u.st) && !Established(u.st)
    ensures !Established(Hangup(u, now).u.st)
  {
    if u.call.hooked {
      HangupHeard(u, now);
      HangingUpOk(u, now);
      var e := CCEvent(u.q.nextSeq + 1, Disconnect(false), now);
      if GoesOut(u.st) { CallingEnds(HangingUp(u, now), e, now); } else { ClosedIgnores(HangingUp(u, now), e, now); }
      hide Hangup, HangingUp, RecvEvent, Good;
    }
  }

  lemma TimeoutEnds(u: Ua, which: SetupTimer, now: int)
    requires Good(u) && Calm(u.st) && !Established(u.st) && Guard(u, GetTimeout(which))
    ensures !Established(SetupTimerFires(u, which, now).u.st)
  {
    TimeoutHeard(u, which, now);
    HangupEnds(u.(timers := NO_TIMERS), now);
    hide Hangup, SetupTimerFires;
  }

  lemma CallerUnderway(w: World, u': Ua, heard: set<Answer>)
    requires Underway(w) && AttemptStep(w.a.ua, u', heard) && (Setup(u'.st) ==> Setup(w.a.ua.st))
    ensures Underway(Put(w, LegA, u'))
  {
    hide HoldsSound;
    if w.o.Some? && w.o.value.done <= |w.o.value.ua.q.outbox| {
      assert Coming(w.o.value.(ua := Counting(w.o.value.ua, u'.q.nextSeq))) == Coming(w.o.value);
    }
  }

  lemma CalleeUnderway(w: World, i: Input, now: int)
    requires Underway(w) && w.o.Some? && Good(w.o.value.ua) && Guard(w.o.value.ua, i) && (i.GetEvent? ==> i.e.kind.Try?)
    requires (Setup(w.a.ua.st) ==> Calm(w.o.value.ua.st)) && w.o.value.done <= |w.o.value.ua.q.outbox|
    requires !w.established ==> !Established(w.o.value.ua.st)
    ensures Underway(Put(w, LegO, Step(w.o.value.ua, i, now).u))
  {
    var l, u' := w.o.value, Step(w.o.value.ua, i, now).u;
    StepKeeps(l.ua, i, now);
    if Setup(w.a.ua.st) && !ConnectWaits(w.a.ua.st) {
      ComingGrows(l, u');
      if w.established {
        PrefixHasAnswer(Coming(l), Coming(l.(ua := u')));
      } else if Established(u'.st) {
        AnswerAnnounced(l, i, now);
      }
    }
    hide Good, Step, Escalates, Endings, Calm, HasAnswer;
  }

  lemma NotEstablishedYet(w: World)
    requires Relay.Inv(w)
    ensures !w.established && w.o.Some? ==> !Established(w.o.value.ua.st)
    ensures w.established ==> w.o.Some?
  {
    hide Good, Balanced, AttemptFirst, LegOk, TellsTruth;
  }

  lemma OutsideUnderway(w: World, side: Side, i: Input, now: int, heard: set<Answer>)
    requires Relay.Inv(w) && Relay.Enabled(w, Outside(side, i)) && Early(w, heard) && Underway(w)
    ensures Underway(Act(w, Outside(side, i), now))
  {
    var w1 := w.(answered := w.answered || IsAnswer(w, side, i));
    CallerAgent(w);
    NotEstablishedYet(w);
    hide Relay.Inv, Step, Good, HoldsSound, Guard, Calm, HasAnswer;
    if side == LegA {
      if Setup(w.a.ua.st) { AttemptActs(w.a.ua, i, now, heard); } else { StaysClosed(w.a.ua, i, now); ClosedStep(w.a.ua, i, now, heard); }
      CallerUnderway(w1, Step(w.a.ua, i, now).u, heard);
    } else {
      CalleeUnderway(w1, i, now);
    }
  }

  lemma EmitsUnderway(w: World, side: Side, now: int, heard: set<Answer>)
    requires Relay.Inv(w) && Relay.Enabled(w, Emits(side)) && Early(w, heard) && Underway(w)
    ensures Underway(Act(w, Emits(side), now))
  {
    CallerAgent(w);
    NotEstablishedYet(w);
    NextEventStep(The(w, side).ua, now);
    EmitKeepsState(The(w, side).ua);
    hide Good, EmitNext, HoldsSound, Calm, QueueOk, HasAnswer, Relay.Inv;
    if side == LegA {
      CallerUnderway(w, EmitNext(w.a.ua), heard);
    } else {
      CalleeUnderway(w, NextEvent, now);
    }
  }

  /** An answer the caller's leg is handed establishes it, or waits for the PRACK. */
  lemma AnswerTaken(u: Ua, e: CCEvent, now: int)
    requires Good(u) && CallerSide(u.st) && Answers(e.kind)
    ensures var s := RecvEvent(u, e, now).u.st; !Setup(s) || ConnectWaits(s)
  {
    hide RecvEvent, Good;
    if Held(u.st, e.kind) { EventHeld(u, e, now); } else { EventSpoken(u, e, now); }
  }

  lemma ToCallerUnderway(w: World, now: int, heard: set<Answer>)
    requires Relay.Inv(w) && Relay.Enabled(w, Deliver(LegO)) && Early(w, heard) && Underway(w)
    ensures Underway(Act(w, Deliver(LegO), now))
  {
    var l := w.o.value;
    var e := l.ua.q.outbox[l.done];
    var u' := RecvEvent(w.a.ua, e, now).u;
    CallerAgent(w);
    ToldBy(l.ua, l.done);
    hide Relay.Inv, RecvEvent, Good, HoldsSound, Calm;
    var w1 := Dealt(w.(strays := w.strays + if Stray(w, LegO, e) then 1 else 0), LegO);
    assert Coming(l)[0] == e && Coming(w1.o.value) == Coming(l)[1..];
    if Setup(w.a.ua.st) {
      AttemptEvent(w.a.ua, e, now, heard);
      if Answers(e.kind) {
        AnswerTaken(w.a.ua, e, now);
        AnsweredNow(w1, u');
      } else {
        RestHasAnswer(Coming(l));
        CallerUnderway(w1, u', heard);
      }
    } else {
      StaysClosed(w.a.ua, GetEvent(e), now);
      AnsweredNow(w1, u');
    }
  }

  lemma AnsweredNow(w: World, u': Ua)
    requires !Setup(u'.st) || ConnectWaits(u'.st)
    ensures Underway(Put(w, LegA, u'))
  {
  }

  lemma RestHasAnswer(s: seq<CCEvent>)
    requires |s| > 0 && !Answers(s[0].kind)
    ensures HasAnswer(s) ==> HasAnswer(s[1..])
  {
    if HasAnswer(s) {
      var k :| 0 <= k < |s| && Answers(s[k].kind);
      assert s[1..][k - 1] == s[k];
    }
  }

  lemma ToCalleeUnderway(w: World, now: int, heard: set<Answer>)
    requires Relay.Inv(w) && Relay.Enabled(w, Deliver(LegA)) && Early(w, heard) && Underway(w)
    ensures Underway(Act(w, Deliver(LegA), now))
  {
    var e := w.a.ua.q.outbox[w.a.done];
    CallerAgent(w);
    NotEstablishedYet(w);
    ToldBy(w.a.ua, w.a.done);
    hide Relay.Inv, RecvEvent, Good, HoldsSound, Calm, HasAnswer;
    var w1 := Dealt(w.(strays := w.strays + if Stray(w, LegA, e) then 1 else 0), LegA);
    if w.o.Some? {
      if Setup(w.a.ua.st) { CalleeUnderway(w1, GetEvent(e), now); }
    } else if e.kind.Try? {
      NewCallee(w.cfgO, w.a.ua.q.nextSeq, e, now);
    }
  }

  lemma ActUnderway(w: World, act: Action, now: int, heard: set<Answer>)
    requires Relay.Inv(w) && Relay.Enabled(w, act) && Early(w, heard) && Underway(w)
    ensures Underway(Act(w, act, now))
  {
    hide Relay.Inv, Early, Act, Underway;
    match act
    case Outside(side, i) => OutsideUnderway(w, side, i, now, heard);
    case Emits(side) => EmitsUnderway(w, side, now, heard);
    case Deliver(side) => if side == LegO { ToCallerUnderway(w, now, heard); } else { ToCalleeUnderway(w, now, heard); }
  }

  lemma {:induction false} RunUnderway(w: World, acts: seq<Relay.Timed>, heard: set<Answer>)
    requires Relay.Inv(w) && Early(w, heard) && Underway(w) && Relay.Possible(w, acts)
    ensures Underway(Relay.Run(w, acts))
    decreases |acts|
  {
    if acts != [] {
      ActKeepsInv(w, acts[0].act, acts[0].now);
      ActEarly(w, acts[0].act, acts[0].now, heard);
      ActUnderway(w, acts[0].act, acts[0].now, heard);
      RunUnderway(Act(w, acts[0].act, acts[0].now), acts[1..], heard + HeardBy(acts[0].act));
    }
    hide Relay.Inv, Act, Early, Underway;
  }

  /** In every run: once all events are dealt with, a call that the callee answered is answered on the
      caller's leg or over there, or its answer is held until the PRACK. */
  lemma NoAnswerLost(cfgA: Config, cfgO: Config, nextSeq: int, acts: seq<Relay.Timed>)
    requires 1 <= nextSeq && Relay.Possible(Initial(cfgA, cfgO, nextSeq), acts)
    ensures var w := Relay.Run(Initial(cfgA, cfgO, nextSeq), acts);
            Settled(w) && w.established ==> !Setup(w.a.ua.st) || ConnectWaits(w.a.ua.st)
  {
    var w0 := Initial(cfgA, cfgO, nextSeq);
    InitialInv(cfgA, cfgO, nextSeq);
    RunEarly(w0, acts, {});
    RunUnderway(w0, acts, {});
    var w := Relay.Run(w0, acts);
    CallerAgent(w);
    NotEstablishedYet(w);
    hide Relay.Inv, Relay.Run, Early, Relay.Possible;
    if Settled(w) && w.established { assert Coming(w.o.value) == []; }
  }
}
