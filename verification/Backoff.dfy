/** Retransmission arithmetic: the doubling of timer A and of the PRACK timer. */
module Backoff {
  import opened Messages
  import opened ServerSpec
  import opened ServerProperties

  function Pow2(k: nat): (p: int)
    ensures p >= 1
  {
    if k == 0 then 1 else 2 * Pow2(k - 1)
  }

  lemma {:induction false} Pow2AtLeast(k: nat)
    requires k >= 6
    ensures Pow2(k) >= 64
  {
    if k > 6 { Pow2AtLeast(k - 1); } else { assert Pow2(3) == 8; assert Pow2(6) == 8 * Pow2(3); }
  }

  /** A timer that has fired k times since `t0`, each time no earlier than it was due, and doubled
      its delay each time, is not due again before `t0 + T1 * (2^(k+1) - 1)`. */
  predicate Doubled(t0: int, k: nat, delay: int, deadline: int) {
    delay == T1 * Pow2(k) && deadline >= t0 + T1 * (2 * Pow2(k) - 1)
  }

  lemma Redouble(t0: int, k: nat, delay: int, deadline: int, now: int)
    requires Doubled(t0, k, delay, deadline) && deadline <= now
    ensures Doubled(t0, k + 1, 2 * delay, now + 2 * delay)
    ensures k >= 6 ==> now >= t0 + 63500
  {
    if k >= 6 { Pow2AtLeast(k); }
  }

  function Count(trace: seq<Log>, cause: Cause, before: int): nat {
    if trace == [] then 0
    else
      var rest := Count(trace[1..], cause, before);
      if trace[0].out.Transmit? && trace[0].out.cause == cause && trace[0].at < before then 1 + rest else rest
  }

  lemma {:induction false} CountConcat(a: seq<Log>, b: seq<Log>, cause: Cause, before: int)
    ensures Count(a + b, cause, before) == Count(a, cause, before) + Count(b, cause, before)
  {
    if a == [] {
      assert a + b == b;
    } else {
      assert (a + b)[1..] == a[1..] + b;
      CountConcat(a[1..], b, cause, before);
    }
  }

  /** The answered transaction whose timer A fired k times since the final response of time `t0`. */
  predicate FinalBackoff(s: Srv, t0: int, k: nat) {
    s.timers.a.Some? ==> s.state == Completed && Doubled(t0, k, s.tout, s.timers.a.value)
  }

  lemma FinalBackoffStep(t: Tables, me: Id, s: Srv, e: Event, t0: int, k: nat)
    requires Inv(s) && !Unanswered(s) && FinalBackoff(s, t0, k)
    ensures
      var st := Apply(t, me, s, e);
      var fired := Enabled(t, s, e) && e.input == FireA;
      && !Unanswered(st.s) && FinalBackoff(st.s, t0, if fired then k + 1 else k)
      && (fired ==> st.outs == [Transmit(s.data.value, ByTimerA)] && (k >= 6 ==> e.at >= t0 + 63500))
      && (!fired ==> |st.outs| <= 2 && forall i :: 0 <= i < |st.outs| && st.outs[i].Transmit? ==> st.outs[i].cause != ByTimerA)
  {
    if Enabled(t, s, e) && e.input == FireA {
      Redouble(t0, k, s.tout, s.timers.a.value, e.at);
    }
  }

  /** Of the final response to an INVITE at most six repetitions by timer A leave within the 32
      seconds that it waits for the ACK. */
  lemma {:induction false} FinalCopies(t: Tables, me: Id, s: Srv, evs: seq<Event>, t0: int, k: nat)
    requires Inv(s) && !Unanswered(s) && FinalBackoff(s, t0, k)
    ensures Count(Run(t, me, s, evs).trace, ByTimerA, t0 + TIMER_D) <= if k < 6 then 6 - k else 0
    decreases |evs|
  {
    hide Inv, Apply;
    if evs != [] {
      FinalBackoffStep(t, me, s, evs[0], t0, k);
      Unroll(t, me, s, evs);
      var st := Apply(t, me, s, evs[0]);
      var first := Stamp(st.outs, evs[0].at);
      var fired := Enabled(t, s, evs[0]) && evs[0].input == FireA;
      CountConcat(first, Run(st.t, me, st.s, evs[1..]).trace, ByTimerA, t0 + TIMER_D);
      FinalCopies(st.t, me, st.s, evs[1..], t0, if fired then k + 1 else k);
      if fired {
        assert Count(first, ByTimerA, t0 + TIMER_D) <= if k < 6 then 1 else 0 by { assert first[1..] == []; }
      } else {
        CountNone(first, ByTimerA, t0 + TIMER_D);
      }
    }
  }

  lemma {:induction false} CountNone(tr: seq<Log>, cause: Cause, before: int)
    requires forall i :: 0 <= i < |tr| && tr[i].out.Transmit? ==> tr[i].out.cause != cause
    ensures Count(tr, cause, before) == 0
  {
    if tr != [] { CountNone(tr[1..], cause, before); }
  }

  /** Sending a final response to an INVITE starts that count at zero, so with the first copy at
      most seven go out. */
  lemma FinalBackoffStarts(t: Tables, me: Id, s: Srv, r: Response, wantAck: bool, tag: Token, now: int)
    requires Inv(s) && s.live && s.Invite() && Unanswered(s) && Final(r) && tag != EMPTY
    ensures
      var st := SendResponse(t, me, s, r, wantAck, tag, now);
      && Inv(st.s) && !Unanswered(st.s) && FinalBackoff(st.s, now, 0)
      && |st.outs| == 1 && st.outs[0].Transmit? && st.outs[0].cause == FirstTime
  {
    SendKeepsInv(t, me, s, r, wantAck, tag, now);
  }

  /** The reliable provisional response first sent at `t0` and repeated k times. */
  predicate PrackBackoff(s: Srv, t0: int, k: nat) {
    s.rel.inflight.Some? ==>
      k <= 6 && Doubled(t0, k, s.rel.inflight.value.lastTimeout, s.rel.inflight.value.deadline)
  }

  /** A final response numbers nothing. */
  lemma SendKeepsReliable(t: Tables, me: Id, s: Srv, r: Response, wantAck: bool, tag: Token, now: int)
    requires !SentReliably(s, r)
    ensures
      var st := SendResponse(t, me, s, r, wantAck, tag, now);
      st.s.rel == s.rel && st.s.hdr == s.hdr && forall i :: 0 <= i < |st.outs| ==>
        st.outs[i].Transmit? && st.outs[i].cause == FirstTime
  {
  }

  predicate PrackFires(t: Tables, s: Srv, e: Event) { Enabled(t, s, e) && e.input == FirePrack }

  predicate InFlight(s: Srv, k: RTID) { s.rel.inflight.Some? && s.rel.inflight.value.rtid == k }

  /** Apart from its own timer only its end touches a reliable provisional response; and only while none
      is in flight another starts, with a number not used before. */
  predicate Untouched(s: Srv, now: int, s': Srv) {
    s.hdr == s'.hdr && s.rel.rseq <= s'.rel.rseq &&
    (s'.rel.inflight == s.rel.inflight || s'.rel.inflight.None? ||
     (s.rel.inflight.None? && s.rel.rseq < s'.rel.rseq && InFlight(s', NextRtid(s)) && PrackBackoff(s', now, 0)))
  }

  lemma SendStep(t: Tables, me: Id, s: Srv, r: Response, wantAck: bool, tag: Token, now: int)
    ensures
      var st := SendResponse(t, me, s, r, wantAck, tag, now);
      Untouched(s, now, st.s) && forall i :: 0 <= i < |st.outs| ==> st.outs[i].Transmit? && st.outs[i].cause == FirstTime
  {
    assert Pow2(0) == 1;
    if r.code < 200 { } else { }
  }

  lemma OtherStep(t: Tables, me: Id, s: Srv, e: Event)
    requires Inv(s) && !PrackFires(t, s, e)
    ensures
      var st := Apply(t, me, s, e);
      && Untouched(s, e.at, st.s)
      && (forall i :: 0 <= i < |st.outs| && st.outs[i].Transmit? ==> st.outs[i].cause != ByPrackTimer)
  {
    if Enabled(t, s, e) {
      hide SendResponse, DoCancel, IncomingRequest, PrackBackoff, NextRtid;
      match e.input
      case Send(r, wantAck, tag) => SendStep(t, me, s, r, wantAck, tag, e.at);
      case Recv(req, tag) => RecvKeepsReliable(t, me, s, req, tag, e.at);
      case FireE => CancelKeepsReliable(t, me, s.(timers := s.timers.(e := None)), TIMER_TAG, e.at);
      case _ =>
    }
  }

  lemma CancelKeepsReliable(t: Tables, me: Id, s: Srv, tag: Token, now: int)
    ensures
      var st := DoCancel(t, me, s, tag, now);
      st.s.rel == s.rel && st.s.hdr == s.hdr && forall i :: 0 <= i < |st.outs| && st.outs[i].Transmit? ==>
        st.outs[i].cause == FirstTime
  {
    SendKeepsReliable(t, me, s, R487(s), false, tag, now);
    hide SendResponse;
  }

  lemma RecvKeepsReliable(t: Tables, me: Id, s: Srv, req: Request, tag: Token, now: int)
    ensures
      var st := IncomingRequest(t, me, s, req, tag, now);
      st.s.hdr == s.hdr && st.s.rel.rseq == s.rel.rseq &&
      (st.s.rel.inflight == s.rel.inflight || st.s.rel.inflight.None?) &&
      forall i :: 0 <= i < |st.outs| && st.outs[i].Transmit? ==> st.outs[i].cause != ByPrackTimer
  {
    CancelKeepsReliable(t, me, s, tag, now);
    hide DoCancel;
  }

  predicate SameOrGone(s: Srv, s': Srv) {
    s'.rel.rseq == s.rel.rseq && s'.hdr == s.hdr &&
    (s'.rel.inflight.Some? ==> s.rel.inflight.Some? && s'.rel.inflight.value.rtid == s.rel.inflight.value.rtid)
  }

  lemma PrackFiring(t: Tables, me: Id, s: Srv, e: Event, t0: int, k: nat)
    requires Inv(s) && PrackBackoff(s, t0, k) && PrackFires(t, s, e)
    ensures
      var st := Apply(t, me, s, e);
      && PrackBackoff(st.s, t0, k + 1)
      && SameOrGone(s, st.s)
      && |st.outs| <= 1
      && (st.s.rel.inflight.None? <==> k == 6)
      && (k == 6 ==> e.at >= t0 + 63500 && forall i :: 0 <= i < |st.outs| ==> !st.outs[i].Transmit?)
  {
    var f := s.rel.inflight.value;
    Redouble(t0, k, f.lastTimeout, f.deadline, e.at);
    if k < 6 { Pow2Below(k); } else { assert Pow2(6) == 64 by { assert Pow2(3) == 8; } }
  }

  lemma {:induction false} Pow2Below(k: nat)
    requires k < 6
    ensures Pow2(k) <= 32
  {
    assert Pow2(3) == 8;
    if k == 4 { assert Pow2(4) == 2 * Pow2(3); }
    if k == 5 { assert Pow2(5) == 4 * Pow2(3); }
  }

  /** How often in a run the response with this identifier is repeated. */
  function Repeats(t: Tables, me: Id, s: Srv, evs: seq<Event>, id: RTID): nat
    requires Inv(s)
    decreases |evs|
  {
    if evs == [] then 0
    else
      ApplyKeepsInv(t, me, s, evs[0]);
      var st := Apply(t, me, s, evs[0]);
      (if PrackFires(t, s, evs[0]) && InFlight(s, id) && st.outs != [] && st.outs[0].Transmit? then 1 else 0) +
        Repeats(st.t, me, st.s, evs[1..], id)
  }

  /** The repetitions that are left to the response with this identifier. */
  function Left(s: Srv, id: RTID, k: nat): nat
    requires k <= 6
  {
    if InFlight(s, id) then 6 - k else if id.rseq < s.rel.rseq then 0 else 6
  }

  /** In every run, whatever else is sent and received and however many others are sent reliably, each
      reliable provisional response is repeated at most six times. */
  lemma {:induction false} PrackCopies(t: Tables, me: Id, s: Srv, evs: seq<Event>, id: RTID, t0: int, k: nat)
    requires Inv(s) && k <= 6 && (InFlight(s, id) ==> PrackBackoff(s, t0, k))
    ensures Repeats(t, me, s, evs, id) <= Left(s, id, k)
    decreases |evs|
  {
    if evs != [] {
      var e := evs[0];
      var st := Apply(t, me, s, e);
      ApplyKeepsInv(t, me, s, e);
      NumbersUsed(s, id);
      NumbersUsed(st.s, id);
      if PrackFires(t, s, e) {
        if InFlight(s, id) {
          PrackFiring(t, me, s, e, t0, k);
          PrackCopies(st.t, me, st.s, evs[1..], id, t0, if k < 6 then k + 1 else k);
        } else {
          FiringKeeps(t, me, s, e);
          PrackCopies(st.t, me, st.s, evs[1..], id, t0, k);
        }
      } else {
        OtherStep(t, me, s, e);
        if InFlight(s, id) {
          PrackCopies(st.t, me, st.s, evs[1..], id, t0, k);
        } else {
          PrackCopies(st.t, me, st.s, evs[1..], id, e.at, 0);
        }
      }
    }
    hide Apply, Inv, PrackBackoff;
  }

  lemma NumbersUsed(s: Srv, id: RTID)
    requires Inv(s)
    ensures InFlight(s, id) ==> id.rseq < s.rel.rseq
  {
  }

  lemma FiringKeeps(t: Tables, me: Id, s: Srv, e: Event)
    requires Inv(s) && PrackFires(t, s, e)
    ensures SameOrGone(s, Apply(t, me, s, e).s)
  {
  }

  /** In particular in every run of a transaction from its creation on. */
  lemma PrackCopiesFromStart(t: Tables, me: Id, h: Hdr, expires: int, now: int, evs: seq<Event>, id: RTID)
    ensures Inv(New(h, expires, now)) && Repeats(t, me, New(h, expires, now), evs, id) <= 6
  {
    NewInv(h, expires, now);
    PrackCopies(t, me, New(h, expires, now), evs, id, 0, 0);
  }
}
