/** Two user agents joined by the controller of the simple B2BUA: the caller's leg, and the callee's leg
    it creates for the first call attempt. */
module Relay {
  import opened Messages
  import opened UaSpec
  import opened UaProperties
  import opened UaRuns
  import opened UaReports

  /** The caller's leg and the callee's leg. */
  datatype Side = LegA | LegO

  /** One leg: the agent, and how many of the events it handed over the controller has dealt with. */
  datatype Leg = Leg(ua: Ua, done: nat)

  /** `answered`: the callee's leg was handed a 2xx while it was being set up.
      `established`: the callee's leg has been established.
      `strays`: failures a live leg reported to a leg that had no re-INVITE waiting for an answer. */
  datatype World = World(a: Leg, o: Option<Leg>, cfgO: Config, answered: bool, established: bool, strays: nat)

  predicate Idle(l: Leg) { l.ua.q.equeue == [] && l.done == |l.ua.q.outbox| }

  /** The session lock is free: every event was emitted and dealt with. */
  predicate Settled(w: World) { Idle(w.a) && (w.o.Some? ==> Idle(w.o.value)) }

  datatype Action =
    | Outside(side: Side, i: Input)   // a message, a timer, a shutdown
    | Emits(side: Side)               // the emission loop of a leg goes round once
    | Deliver(side: Side)             // the controller passes the next event of a leg on

  predicate FromOutside(i: Input) { !i.GetEvent? && !i.NextEvent? && !i.Elsewhere? }

  predicate Has(w: World, side: Side) { side == LegA || w.o.Some? }

  function The(w: World, side: Side): Leg
    requires Has(w, side)
  {
    if side == LegA then w.a else w.o.value
  }

  predicate Enabled(w: World, act: Action) {
    match act
    case Outside(side, i) => Settled(w) && Has(w, side) && FromOutside(i) && Guard(The(w, side).ua, i)
    case Emits(side) => Has(w, side) && Guard(The(w, side).ua, NextEvent)
    case Deliver(side) => Has(w, side) && The(w, side).done < |The(w, side).ua.q.outbox|
  }

  /** All agents number their events from one counter. */
  function Counting(u: Ua, nextSeq: int): Ua { u.(q := u.q.(nextSeq := nextSeq)) }

  /** A leg after a step of its agent; the other leg sees the counter. */
  function Put(w: World, side: Side, u: Ua): World
    requires Has(w, side)
  {
    var n := u.q.nextSeq;
    if side == LegA then
      w.(a := w.a.(ua := u), o := if w.o.Some? then Some(w.o.value.(ua := Counting(w.o.value.ua, n))) else None)
    else
      w.(o := Some(w.o.value.(ua := u)), a := w.a.(ua := Counting(w.a.ua, n)),
         established := w.established || Established(u.st))
  }

  predicate IsAnswer(w: World, side: Side, i: Input) {
    side == LegO && w.o.Some? && CalleeSide(w.o.value.ua.st) && i.GetResponse? && Success(i.resp)
  }

  function Dealt(w: World, side: Side): World
    requires Has(w, side)
  {
    if side == LegA then w.(a := w.a.(done := w.a.done + 1))
    else w.(o := Some(w.o.value.(done := w.o.value.done + 1)))
  }

  /** `callController.RecvEvent`. */
  function Passed(w: World, side: Side, e: CCEvent, now: int): World
    requires Has(w, side)
  {
    if side == LegO then Put(w, LegA, RecvEvent(w.a.ua, e, now).u)
    else if w.o.Some? then Put(w, LegO, RecvEvent(w.o.value.ua, e, now).u)
    else if e.kind.Try? then
      var o := New(w.cfgO, w.a.ua.q.nextSeq);
      Put(w.(o := Some(Leg(o, 0))), LegO, RecvEvent(o, e, now).u)
    else
      var own := CCEvent(w.a.ua.q.nextSeq, Disconnect(false), e.rtime);
      Put(w, LegA, RecvEvent(Counting(w.a.ua, w.a.ua.q.nextSeq + 1), own, now).u)
  }

  /** A leg that is live reports a failure to a leg that does not wait for one. */
  predicate Stray(w: World, side: Side, e: CCEvent) {
    w.o.Some? && LiveState(w.a.ua.st) && LiveState(w.o.value.ua.st) && (e.kind.Fail? || e.kind.Redirect?) &&
    !(if side == LegA then w.o.value.ua.st else w.a.ua.st).UasUpdating?
  }

  function Act(w: World, act: Action, now: int): World
    requires Enabled(w, act)
  {
    match act
    case Outside(side, i) =>
      var w1 := w.(answered := w.answered || IsAnswer(w, side, i));
      Put(w1, side, Step(The(w, side).ua, i, now).u)
    case Emits(side) => Put(w, side, EmitNext(The(w, side).ua))
    case Deliver(side) =>
      var e := The(w, side).ua.q.outbox[The(w, side).done];
      var w1 := w.(strays := w.strays + if Stray(w, side, e) then 1 else 0);
      Passed(Dealt(w1, side), side, e, now)
  }

  function Initial(cfgA: Config, cfgO: Config, nextSeq: int): World {
    World(Leg(New(cfgA, nextSeq), 0), None, cfgO, false, false, 0)
  }

  /** Each event a leg hands over reaches the other leg, once and in turn, and nothing else happens there;
      the first attempt makes the other leg, and any other first event is answered with a disconnect. */
  lemma EachEventPassedOn(w: World, side: Side, now: int)
    requires Enabled(w, Deliver(side))
    ensures var w', e := Act(w, Deliver(side), now), The(w, side).ua.q.outbox[The(w, side).done];
            var other := if side == LegA then LegO else LegA;
            w'.answered == w.answered && The(w', side).done == The(w, side).done + 1 &&
            if Has(w, other) then
              The(w', other) == Leg(RecvEvent(The(w, other).ua, e, now).u, The(w, other).done) &&
              The(w', side).ua == Counting(The(w, side).ua, The(w', other).ua.q.nextSeq)
            else if e.kind.Try? then
              w'.o == Some(Leg(RecvEvent(New(w.cfgO, w.a.ua.q.nextSeq), e, now).u, 0))
            else
              w'.o.None? &&
              w'.a.ua == RecvEvent(Counting(w.a.ua, w.a.ua.q.nextSeq + 1), CCEvent(w.a.ua.q.nextSeq, Disconnect(false), e.rtime), now).u
  {
    hide RecvEvent, Stray;
  }

  // ---------------------------------------------------------------- the invariant

  predicate LegOk(l: Leg) { Good(l.ua) && PendingOk(l.ua.st) && l.done <= |l.ua.q.outbox| }

  /** The events the other leg has not seen. */
  function Coming(l: Leg): seq<CCEvent>
    requires l.done <= |l.ua.q.outbox|
  {
    Sent(l.ua)[l.done..]
  }

  predicate NoAnswers(s: seq<CCEvent>) { forall k :: 0 <= k < |s| ==> !Answers(s[k].kind) }

  predicate NoDisconnects(s: seq<CCEvent>) { forall k :: 0 <= k < |s| ==> !s[k].kind.Disconnect? }

  predicate HasDisconnect(s: seq<CCEvent>) { exists k :: 0 <= k < |s| && s[k].kind.Disconnect? }

  predicate HasEnd(s: seq<CCEvent>) { exists k :: 0 <= k < |s| && Ends(s[k].kind) }

  /** A leg that lives has announced no disconnect. */
  predicate TellsTruth(l: Leg) {
    (LiveState(l.ua.st) ==> NoDisconnects(Sent(l.ua))) && (l.ua.st.NoState? ==> Sent(l.ua) == [])
  }

  predicate CallerOk(w: World) { LegOk(w.a) && TellsTruth(w.a) && !CalleeSide(w.a.ua.st) }

  predicate CalleeOk(w: World) {
    w.o.Some? ==>
      LegOk(w.o.value) && TellsTruth(w.o.value) && w.o.value.ua.call.origin == Callee && !w.o.value.ua.st.NoState? &&
      w.o.value.ua.q.nextSeq == w.a.ua.q.nextSeq && !w.a.ua.st.NoState?
  }

  /** The attempt is the first event, and the caller's leg lives until it is passed on. */
  predicate AttemptFirst(w: World) {
    w.o.None? && LegOk(w.a) ==>
      forall k :: 0 <= k < |Coming(w.a)| && Coming(w.a)[k].kind.Try? ==> k == 0 && LiveState(w.a.ua.st)
  }

  /** Before the callee's leg is established nothing anywhere says that the call is. */
  predicate NotYet(w: World) {
    !w.established ==>
      !Established(w.a.ua.st) && !ConnectWaits(w.a.ua.st) &&
      (w.o.Some? ==> !Established(w.o.value.ua.st) && NoAnswers(Sent(w.o.value.ua)))
  }

  predicate Marks(w: World) {
    (w.established ==> w.answered && w.o.Some? && !Setup(w.o.value.ua.st)) && (w.o.None? ==> !w.established)
  }

  /** A leg that has ended while the other lives has an end on its way, unless a stray failure was
      passed on. */
  predicate Balanced(w: World) {
    w.o.Some? && w.strays == 0 && LegOk(w.a) && LegOk(w.o.value) ==>
      (!LiveState(w.a.ua.st) && LiveState(w.o.value.ua.st) ==> HasDisconnect(Coming(w.a))) &&
      (!LiveState(w.o.value.ua.st) && LiveState(w.a.ua.st) ==>
         HasDisconnect(Coming(w.o.value)) || (!w.established && HasEnd(Coming(w.o.value))))
  }

  predicate Inv(w: World) { CallerOk(w) && CalleeOk(w) && AttemptFirst(w) && NotYet(w) && Marks(w) && Balanced(w) }

  lemma InitialInv(cfgA: Config, cfgO: Config, nextSeq: int)
    requires 1 <= nextSeq
    ensures Inv(Initial(cfgA, cfgO, nextSeq))
  {
  }

  // ---------------------------------------------------------------- one leg takes a step

  /** What a step of the agent of a leg keeps, whatever the input. */
  predicate Moved(l: Leg, i: Input, l': Leg) {
    LegOk(l) && LegOk(l') && TellsTruth(l') && l'.done == l.done && Coming(l) <= Coming(l') &&
    l.ua.q.nextSeq <= l'.ua.q.nextSeq && Sent(l.ua) <= Sent(l'.ua) && StepReports(l.ua, i, l'.ua) &&
    StartOk(l.ua, i, l'.ua) && SameRole(l.ua, l'.ua) && (!LiveState(l.ua.st) ==> !LiveState(l'.ua.st)) &&
    (!Setup(l.ua.st) ==> !Setup(l'.ua.st))
  }

  lemma NothingAnnounced(l: Leg, i: Input, u': Ua)
    requires TellsTruth(l) && TrueEvents(l.ua, u') && StartOk(l.ua, i, u') && Sent(l.ua) <= Sent(u')
    requires !LiveState(l.ua.st) ==> !LiveState(u'.st)
    ensures TellsTruth(l.(ua := u'))
  {
    hide Sent;
  }

  lemma LegStep(l: Leg, i: Input, now: int)
    requires LegOk(l) && TellsTruth(l) && Guard(l.ua, i)
    ensures Moved(l, i, l.(ua := Step(l.ua, i, now).u))
  {
    hide Good, PendingOk, InRole, Escalates, QueueOk, TrueEvents, EndReported, Endings, Establishes;
    var u, u' := l.ua, Step(l.ua, i, now).u;
    StepKeeps(u, i, now);
    StepTells(u, i, now);
    StartTells(u, i, now);
    if Revives(u, i) { CancelStep(u, now); }
    hide Step, RecvCancel;
    NothingAnnounced(l, i, u');
    assert Coming(l.(ua := u'))[..|Coming(l)|] == Coming(l);
  }

  /** The other leg only sees the counter move. */
  lemma CountingKeeps(l: Leg, n: int)
    requires LegOk(l) && TellsTruth(l) && l.ua.q.nextSeq <= n
    ensures var l' := l.(ua := Counting(l.ua, n)); LegOk(l') && TellsTruth(l') && Coming(l') == Coming(l)
  {
    QueuesKeep(l.ua.q, l.ua.q.(nextSeq := n));
    hide QueueOk;
  }

  lemma PrefixHas(s: seq<CCEvent>, s': seq<CCEvent>)
    requires s <= s'
    ensures HasDisconnect(s) ==> HasDisconnect(s')
    ensures HasEnd(s) ==> HasEnd(s')
  {
    if HasDisconnect(s) {
      var k :| 0 <= k < |s| && s[k].kind.Disconnect?;
      assert s'[k].kind.Disconnect?;
    }
    if HasEnd(s) {
      var k :| 0 <= k < |s| && Ends(s[k].kind);
      assert Ends(s'[k].kind);
    }
  }

  /** A leg that ends by itself has an end on its way. */
  lemma EndComing(l: Leg, u': Ua)
    requires LegOk(l) && l.done <= |u'.q.outbox| && EndReported(l.ua, u')
    ensures HasDisconnect(Sent(u')[l.done..]) || (CalleeSide(l.ua.st) && HasEnd(Sent(u')[l.done..]))
  {
    var k :| |Sent(l.ua)| <= k < |Sent(u')| && SaysEnd(l.ua.st, Sent(u')[k].kind);
    assert Sent(u')[l.done..][k - l.done] == Sent(u')[k];
  }

  // ---------------------------------------------------------------- the caller's leg acts

  lemma CallerNotYet(w: World, i: Input, l': Leg)
    requires CallerOk(w) && CalleeOk(w) && NotYet(w) && Marks(w) && Moved(w.a, i, l') && !i.GetEvent?
    ensures NotYet(Put(w, LegA, l'.ua)) && Marks(Put(w, LegA, l'.ua)) && !CalleeSide(l'.ua.st)
  {
    hide Good, PendingOk, TrueEvents, EndReported, Coming, Ends, NoDisconnects;
  }

  lemma CallerAttempt(w: World, i: Input, l': Leg)
    requires CallerOk(w) && AttemptFirst(w) && Moved(w.a, i, l') && w.o.None?
    requires i.NextEvent? ==> l'.ua.st == w.a.ua.st
    requires !i.NextEvent? ==> Settled(w)
    ensures AttemptFirst(Put(w, LegA, l'.ua))
  {
    var l := w.a;
    assert Idle(l) ==> Coming(l) == [];
    forall k | 0 <= k < |Coming(l')| && Coming(l')[k].kind.Try? ensures k == 0 && LiveState(l'.ua.st) {
      if k < |Coming(l)| {
        assert Coming(l)[k] == Coming(l')[k];
      } else {
        assert Coming(l')[k] == Sent(l'.ua)[l.done + k];
      }
    }
    hide Good, PendingOk, EndReported, Ends, NoDisconnects;
  }

  lemma CallerBalanced(w: World, i: Input, l': Leg)
    requires CallerOk(w) && CalleeOk(w) && Balanced(w) && Moved(w.a, i, l') && w.o.Some? && !ToldToEnd(i)
    ensures Balanced(Put(w, LegA, l'.ua))
  {
    PrefixHas(Coming(w.a), Coming(l'));
    CountingKeeps(w.o.value, l'.ua.q.nextSeq);
    if EndReported(w.a.ua, l'.ua) { EndComing(w.a, l'.ua); }
    hide Good, PendingOk, HasDisconnect, HasEnd, EndReported, TrueEvents, QueueOk, NoDisconnects;
  }

  lemma CallerActs(w: World, i: Input, now: int)
    requires Inv(w) && Guard(w.a.ua, i) && FromOutside(i) && Settled(w)
    ensures Inv(Put(w, LegA, Step(w.a.ua, i, now).u))
  {
    var l' := w.a.(ua := Step(w.a.ua, i, now).u);
    LegStep(w.a, i, now);
    CallerNotYet(w, i, l');
    if w.o.Some? {
      CountingKeeps(w.o.value, l'.ua.q.nextSeq);
      CallerBalanced(w, i, l');
    } else {
      CallerAttempt(w, i, l');
    }
    hide Step, Good, PendingOk, NotYet, Balanced, AttemptFirst, Marks, StepReports, StartOk, NoDisconnects;
  }

  lemma CallerEmits(w: World, now: int)
    requires Inv(w) && Guard(w.a.ua, NextEvent)
    ensures Inv(Put(w, LegA, EmitNext(w.a.ua)))
  {
    var l' := w.a.(ua := EmitNext(w.a.ua));
    LegStep(w.a, NextEvent, now);
    CallerNotYet(w, NextEvent, l');
    if w.o.Some? {
      CountingKeeps(w.o.value, l'.ua.q.nextSeq);
      CallerBalanced(w, NextEvent, l');
    } else {
      CallerAttempt(w, NextEvent, l');
    }
    hide Good, PendingOk, NotYet, Balanced, AttemptFirst, Marks, StepReports, StartOk, NoDisconnects;
  }

  // ---------------------------------------------------------------- the callee's leg acts

  lemma CalleeNotYet(w: World, i: Input, l': Leg)
    requires CallerOk(w) && CalleeOk(w) && NotYet(w) && Marks(w) && w.o.Some? && Moved(w.o.value, i, l') && !i.GetEvent?
    requires IsAnswer(w, LegO, i) ==> w.answered
    ensures NotYet(Put(w, LegO, l'.ua)) && Marks(Put(w, LegO, l'.ua))
  {
    hide PendingOk, EndReported, Coming, Ends, NoDisconnects, TimersOk, TimersFit, QueueOk;
  }

  lemma CalleeBalanced(w: World, i: Input, l': Leg)
    requires CallerOk(w) && CalleeOk(w) && Balanced(w) && w.o.Some? && Moved(w.o.value, i, l') && !ToldToEnd(i)
    requires Marks(w) && Marks(Put(w, LegO, l'.ua))
    ensures Balanced(Put(w, LegO, l'.ua))
  {
    hide Good, PendingOk, HasDisconnect, HasEnd, EndReported, TrueEvents, QueueOk, NoDisconnects;
    var l, w' := w.o.value, Put(w, LegO, l'.ua);
    PrefixHas(Coming(l), Coming(l'));
    CountingKeeps(w.a, l'.ua.q.nextSeq);
    assert w'.o == Some(l') && Coming(w'.a) == Coming(w.a) && w'.a.ua.st == w.a.ua.st;
    if LiveState(l.ua.st) && !LiveState(l'.ua.st) {
      EndComing(l, l'.ua);
      assert CalleeSide(l.ua.st) ==> !w'.established;
    } else if !LiveState(l.ua.st) {
      assert w'.established == w.established;
    }
  }

  lemma CalleeActs(w: World, i: Input, now: int)
    requires Inv(w) && w.o.Some? && Guard(w.o.value.ua, i) && !i.GetEvent? && (IsAnswer(w, LegO, i) ==> w.answered)
    ensures Inv(Put(w, LegO, Step(w.o.value.ua, i, now).u))
  {
    var l' := w.o.value.(ua := Step(w.o.value.ua, i, now).u);
    LegStep(w.o.value, i, now);
    CountingKeeps(w.a, l'.ua.q.nextSeq);
    CalleeNotYet(w, i, l');
    CalleeBalanced(w, i, l');
    hide Step, Good, PendingOk, NotYet, Balanced, Marks, StepReports, NoDisconnects;
  }

  // ---------------------------------------------------------------- the controller passes an event on

  /** A leg whose event was dealt with. */
  function Behind(l: Leg): Leg { l.(done := l.done + 1) }

  /** The event that is passed on, and what is left behind it. */
  lemma FirstComing(l: Leg)
    requires LegOk(l) && l.done < |l.ua.q.outbox|
    ensures |Coming(l)| > 0 && Coming(l)[0] == l.ua.q.outbox[l.done] && l.ua.q.outbox[l.done] in Sent(l.ua)
    ensures Coming(l.(done := l.done + 1)) == Coming(l)[1..]
  {
    assert Sent(l.ua)[l.done] == l.ua.q.outbox[l.done];
  }

  lemma TailHas(s: seq<CCEvent>)
    requires |s| > 0
    ensures HasDisconnect(s) ==> s[0].kind.Disconnect? || HasDisconnect(s[1..])
    ensures HasEnd(s) ==> Ends(s[0].kind) || HasEnd(s[1..])
  {
    if HasDisconnect(s) {
      var k :| 0 <= k < |s| && s[k].kind.Disconnect?;
      if k > 0 { assert s[1..][k - 1] == s[k]; }
    }
    if HasEnd(s) {
      var k :| 0 <= k < |s| && Ends(s[k].kind);
      if k > 0 { assert s[1..][k - 1] == s[k]; }
    }
  }

  /** The receiver of an event. */
  predicate Received(l: Leg, e: CCEvent, l': Leg) {
    Moved(l, GetEvent(e), l') && EventMoves(l.ua.st, e.kind, l'.ua.st)
  }

  lemma LegReceives(l: Leg, e: CCEvent, now: int)
    requires LegOk(l) && TellsTruth(l) && !l.ua.st.NoState?
    ensures Received(l, e, l.(ua := RecvEvent(l.ua, e, now).u))
  {
    LegStep(l, GetEvent(e), now);
    EventReports(l.ua, e, now);
    hide RecvEvent, Good, Moved, EventMoves;
  }

  /** From the callee's leg to the caller's. */
  lemma ToCallerNotYet(w: World, e: CCEvent, l': Leg)
    requires CallerOk(w) && CalleeOk(w) && NotYet(w) && Marks(w) && w.o.Some? && Received(w.a, e, l')
    requires e in Sent(w.o.value.ua)
    ensures NotYet(Put(w, LegA, l'.ua)) && Marks(Put(w, LegA, l'.ua)) && !CalleeSide(l'.ua.st)
  {
    if !w.established { assert !Answers(e.kind); }
    hide Good, PendingOk, TrueEvents, EndReported, Coming, Ends, NoDisconnects;
  }

  lemma ToCallerBalanced(w: World, e: CCEvent, l': Leg)
    requires CallerOk(w) && CalleeOk(w) && NotYet(w) && Marks(w) && Balanced(w) && w.o.Some? && Received(w.a, e, l')
    requires w.o.value.done < |w.o.value.ua.q.outbox| && e == w.o.value.ua.q.outbox[w.o.value.done]
    ensures w.strays == 0 && !Stray(w, LegO, e) ==> Balanced(Put(Dealt(w, LegO), LegA, l'.ua))
  {
    hide Good, PendingOk, HasDisconnect, HasEnd, EndReported, TrueEvents, QueueOk, NoAnswers, Answers;
    var o, w' := w.o.value, Put(Dealt(w, LegO), LegA, l'.ua);
    PrefixHas(Coming(w.a), Coming(l'));
    FirstComing(o);
    TailHas(Coming(o));
    CountingKeeps(o, l'.ua.q.nextSeq);
    CountingKeeps(o.(done := o.done + 1), l'.ua.q.nextSeq);
    assert w'.a == l' && Coming(w'.o.value) == Coming(o)[1..] && w'.o.value.ua.st == o.ua.st;
    if LiveState(w.a.ua.st) && !LiveState(l'.ua.st) && LiveState(o.ua.st) {
      assert Ends(e.kind) && !e.kind.Disconnect? && !Absorbs(w.a.ua.st, e.kind);
    }
  }

  /** From the caller's leg to the callee's. */
  lemma ToCalleeNotYet(w: World, e: CCEvent, l': Leg)
    requires CallerOk(w) && CalleeOk(w) && NotYet(w) && Marks(w) && w.o.Some? && Received(w.o.value, e, l')
    ensures NotYet(Put(w, LegO, l'.ua)) && Marks(Put(w, LegO, l'.ua))
  {
    hide PendingOk, EndReported, Coming, Ends, NoDisconnects, TimersOk, TimersFit, QueueOk;
  }

  lemma ToCalleeBalanced(w: World, e: CCEvent, l': Leg)
    requires CallerOk(w) && CalleeOk(w) && Balanced(w) && w.o.Some? && Received(w.o.value, e, l')
    requires Marks(w) && Marks(Put(w, LegO, l'.ua))
    requires w.a.done < |w.a.ua.q.outbox| && e == w.a.ua.q.outbox[w.a.done]
    ensures w.strays == 0 && !Stray(w, LegA, e) ==> Balanced(Put(Dealt(w, LegA), LegO, l'.ua))
  {
    hide Good, PendingOk, HasDisconnect, HasEnd, EndReported, TrueEvents, QueueOk, NoAnswers, Answers;
    var l, w' := w.o.value, Put(Dealt(w, LegA), LegO, l'.ua);
    PrefixHas(Coming(l), Coming(l'));
    FirstComing(w.a);
    TailHas(Coming(w.a));
    CountingKeeps(w.a.(done := w.a.done + 1), l'.ua.q.nextSeq);
    assert w'.o == Some(l') && Coming(w'.a) == Coming(w.a)[1..] && w'.a.ua.st == w.a.ua.st;
    if LiveState(w.a.ua.st) && !LiveState(l'.ua.st) && LiveState(l.ua.st) {
      assert Ends(e.kind) && !e.kind.Disconnect? && !Absorbs(l.ua.st, e.kind);
    } else if !LiveState(l.ua.st) {
      assert w'.established == w.established;
    }
  }

  lemma ToCaller(w: World, now: int)
    requires Inv(w) && Enabled(w, Deliver(LegO))
    ensures Inv(Act(w, Deliver(LegO), now))
  {
    var o := w.o.value;
    var e := o.ua.q.outbox[o.done];
    var l' := w.a.(ua := RecvEvent(w.a.ua, e, now).u);
    FirstComing(o);
    LegReceives(w.a, e, now);
    ToCallerNotYet(w, e, l');
    ToCallerBalanced(w, e, l');
    CountingKeeps(Behind(o), l'.ua.q.nextSeq);
    hide RecvEvent, Step, EmitNext, Good, PendingOk, StepReports, StartOk, EventMoves, NoDisconnects, NoAnswers, HasEnd, HasDisconnect,
      QueueOk;
  }

  lemma ToCallee(w: World, now: int)
    requires Inv(w) && Enabled(w, Deliver(LegA)) && w.o.Some?
    ensures Inv(Act(w, Deliver(LegA), now))
  {
    var l := w.o.value;
    var e := w.a.ua.q.outbox[w.a.done];
    var l' := l.(ua := RecvEvent(l.ua, e, now).u);
    FirstComing(w.a);
    LegReceives(l, e, now);
    ToCalleeNotYet(w, e, l');
    ToCalleeBalanced(w, e, l');
    CountingKeeps(Behind(w.a), l'.ua.q.nextSeq);
    hide RecvEvent, Step, EmitNext, Good, PendingOk, StepReports, StartOk, EventMoves, NoDisconnects, NoAnswers, HasEnd, HasDisconnect,
      QueueOk;
  }

  lemma TryStarts(cfg: Config, n: int, e: CCEvent, now: int)
    requires 1 <= n && e.kind.Try?
    ensures var l' := Leg(RecvEvent(New(cfg, n), e, now).u, 0);
            Moved(Leg(New(cfg, n), 0), GetEvent(e), l') && l'.ua.st == UacTrying
  {
    var l := Leg(New(cfg, n), 0);
    LegStep(l, GetEvent(e), now);
    hide Moved;
  }

  /** The attempt creates the callee's leg. */
  lemma ToNewCallee(w: World, now: int)
    requires Inv(w) && Enabled(w, Deliver(LegA)) && w.o.None? && w.a.ua.q.outbox[w.a.done].kind.Try?
    ensures Inv(Act(w, Deliver(LegA), now))
  {
    var n, e := w.a.ua.q.nextSeq, w.a.ua.q.outbox[w.a.done];
    var o' := RecvEvent(New(w.cfgO, n), e, now).u;
    FirstComing(w.a);
    TryStarts(w.cfgO, n, e, now);
    assert Sent(New(w.cfgO, n)) == [];
    CountingKeeps(Behind(w.a), o'.q.nextSeq);
    hide RecvEvent, PendingOk, StartOk, NoDisconnects, HasEnd, HasDisconnect, QueueOk, TimersOk, TimersFit, EndReported;
  }

  /** Without a callee's leg the caller's leg is told to end. */
  lemma NobodyAttempt(w: World, e: CCEvent, l': Leg)
    requires CallerOk(w) && AttemptFirst(w) && w.o.None? && w.a.done < |w.a.ua.q.outbox|
    requires !w.a.ua.q.outbox[w.a.done].kind.Try? && Moved(Behind(w.a), GetEvent(e), l')
    ensures forall k :: 0 <= k < |Coming(l')| ==> !Coming(l')[k].kind.Try?
  {
    var l := Behind(w.a);
    FirstComing(w.a);
    forall k | 0 <= k < |Coming(l')| ensures !Coming(l')[k].kind.Try? {
      if k < |Coming(l)| {
        assert Coming(l')[k] == Coming(l)[k] == Coming(w.a)[k + 1];
      } else {
        assert Coming(l')[k] == Sent(l'.ua)[l.done + k];
      }
    }
    hide Good, PendingOk, EndReported, NoDisconnects, Ends;
  }

  lemma ToNobody(w: World, now: int)
    requires Inv(w) && Enabled(w, Deliver(LegA)) && w.o.None? && !w.a.ua.q.outbox[w.a.done].kind.Try?
    ensures Inv(Act(w, Deliver(LegA), now))
  {
    var n := w.a.ua.q.nextSeq;
    var e := CCEvent(n, Disconnect(false), w.a.ua.q.outbox[w.a.done].rtime);
    var l := w.a.(ua := Counting(w.a.ua, n + 1));
    var l' := Behind(l).(ua := RecvEvent(l.ua, e, now).u);
    hide Good, PendingOk, QueueOk, EndReported, Answers, Ends, TrueEvents, Coming, Sent, RecvEvent, Step, EmitNext, Stray;
    CountingKeeps(w.a, n + 1);
    CountingKeeps(Behind(w.a), n + 1);
    LegStep(Behind(l), GetEvent(e), now);
    NobodyAttempt(w.(a := l), e, l');
    NobodyLeft(w.(a := l), e, l');
    hide TellsTruth, StepReports, StartOk, LegOk;
  }

  lemma NobodyLeft(w: World, e: CCEvent, l': Leg)
    requires CallerOk(w) && NotYet(w) && Marks(w) && w.o.None? && Moved(Behind(w.a), GetEvent(e), l') && e.kind.Disconnect?
    ensures !Established(l'.ua.st) && !ConnectWaits(l'.ua.st) && !CalleeSide(l'.ua.st)
  {
    hide Good, PendingOk, TrueEvents, EndReported, Coming, Sent, Ends;
  }

  lemma ActKeepsInv(w: World, act: Action, now: int)
    requires Inv(w) && Enabled(w, act)
    ensures Inv(Act(w, act, now))
  {
    match act
    case Outside(side, i) =>
      var w1 := w.(answered := w.answered || IsAnswer(w, side, i));
      assert Inv(w1);
      if side == LegA { CallerActs(w1, i, now); } else { CalleeActs(w1, i, now); }
    case Emits(side) => if side == LegA { CallerEmits(w, now); } else { CalleeActs(w, NextEvent, now); }
    case Deliver(side) =>
      if side == LegO {
        ToCaller(w, now);
      } else if w.o.Some? {
        ToCallee(w, now);
      } else if w.a.ua.q.outbox[w.a.done].kind.Try? {
        ToNewCallee(w, now);
      } else {
        ToNobody(w, now);
      }
  }

  // ---------------------------------------------------------------- whole runs

  datatype Timed = Timed(act: Action, now: int)

  predicate Possible(w: World, acts: seq<Timed>)
    decreases |acts|
  {
    acts == [] || (Enabled(w, acts[0].act) && Possible(Act(w, acts[0].act, acts[0].now), acts[1..]))
  }

  function Run(w: World, acts: seq<Timed>): World
    requires Possible(w, acts)
    decreases |acts|
  {
    if acts == [] then w else Run(Act(w, acts[0].act, acts[0].now), acts[1..])
  }

  lemma {:induction false} RunKeepsInv(w: World, acts: seq<Timed>)
    requires Inv(w) && Possible(w, acts)
    ensures Inv(Run(w, acts))
    decreases |acts|
  {
    if acts != [] {
      ActKeepsInv(w, acts[0].act, acts[0].now);
      RunKeepsInv(Act(w, acts[0].act, acts[0].now), acts[1..]);
    }
    hide Inv, Act;
  }

  /** The callee's leg was handed a 2xx. */
  predicate HandsSuccess(t: Timed) {
    t.act.Outside? && t.act.side == LegO && t.act.i.GetResponse? && Success(t.act.i.resp)
  }

  lemma {:induction false} AnsweredMeansSuccess(w: World, acts: seq<Timed>)
    requires Possible(w, acts) && Run(w, acts).answered
    ensures w.answered || exists k :: 0 <= k < |acts| && HandsSuccess(acts[k])
    decreases |acts|
  {
    if acts != [] && !w.answered {
      var w1 := Act(w, acts[0].act, acts[0].now);
      AnsweredMeansSuccess(w1, acts[1..]);
      if w1.answered {
        assert HandsSuccess(acts[0]);
      } else {
        var k :| 0 <= k < |acts[1..]| && HandsSuccess(acts[1..][k]);
        assert HandsSuccess(acts[k + 1]);
      }
    }
  }

  /** In every run the caller's leg is answered only after the callee's leg was handed a 2xx. */
  lemma CallerAnsweredAfterCallee(cfgA: Config, cfgO: Config, nextSeq: int, acts: seq<Timed>)
    requires 1 <= nextSeq && Possible(Initial(cfgA, cfgO, nextSeq), acts)
    ensures Established(Run(Initial(cfgA, cfgO, nextSeq), acts).a.ua.st) ==>
              exists k :: 0 <= k < |acts| && HandsSuccess(acts[k])
  {
    var w := Initial(cfgA, cfgO, nextSeq);
    InitialInv(cfgA, cfgO, nextSeq);
    RunKeepsInv(w, acts);
    if Run(w, acts).answered { AnsweredMeansSuccess(w, acts); }
    hide Act, Run, Possible;
  }

  /** In every run: a message or timer that makes a leg leave its live states leaves an event for the
      controller that says so: a disconnect, or from a call that was going out a failure or redirect. */
  lemma LeavingIsAnnounced(w: World, side: Side, i: Input, now: int)
    requires Inv(w) && Enabled(w, Outside(side, i))
    ensures var l, l' := The(w, side), The(Act(w, Outside(side, i), now), side);
            Leaves(l.ua.st, l'.ua.st) == 1 ==>
              l.done <= |l'.ua.q.outbox| && l'.done == l.done && (HasDisconnect(Coming(l')) || (CalleeSide(l.ua.st) && HasEnd(Coming(l'))))
  {
    var l := The(w, side);
    var l' := l.(ua := Step(l.ua, i, now).u);
    LegStep(l, i, now);
    if EndReported(l.ua, l'.ua) { EndComing(l, l'.ua); }
    hide Step, Good, PendingOk, EndReported, HasDisconnect, HasEnd, TrueEvents;
  }

  /** In every run: once all events are dealt with, both legs live or neither does, unless a live leg's
      failure was passed to a leg that had no re-INVITE waiting for an answer. */
  lemma NoHalfOpenCall(cfgA: Config, cfgO: Config, nextSeq: int, acts: seq<Timed>)
    requires 1 <= nextSeq && Possible(Initial(cfgA, cfgO, nextSeq), acts)
    ensures var w := Run(Initial(cfgA, cfgO, nextSeq), acts);
            Settled(w) && w.o.Some? && w.strays == 0 ==> (LiveState(w.a.ua.st) <==> LiveState(w.o.value.ua.st))
  {
    InitialInv(cfgA, cfgO, nextSeq);
    RunKeepsInv(Initial(cfgA, cfgO, nextSeq), acts);
    var w := Run(Initial(cfgA, cfgO, nextSeq), acts);
    if Settled(w) && w.o.Some? { assert Coming(w.a) == [] && Coming(w.o.value) == []; }
    hide Act, Possible, Run;
  }

  /** Such a failure does separate the legs: the sender lives on, the receiver ends. */
  lemma StraySeparates(w: World, side: Side, now: int)
    requires Inv(w) && Enabled(w, Deliver(side)) && Stray(w, side, The(w, side).ua.q.outbox[The(w, side).done])
    ensures var w' := Act(w, Deliver(side), now); w'.o.Some? && (LiveState(w'.a.ua.st) <==> !LiveState(w'.o.value.ua.st))
  {
    var e := The(w, side).ua.q.outbox[The(w, side).done];
    LegReceives(if side == LegA then w.o.value else w.a, e, now);
    hide RecvEvent, Good, PendingOk, Moved;
  }
}
