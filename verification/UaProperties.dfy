/** What every step of a user agent keeps, and what a whole run does. */
module UaProperties {
  import opened Messages
  import opened UaSpec

  // ---------------------------------------------------------------- phases and roles

  /** Setup, established, closing, dead. */
  function Phase(s: State): int {
    if Setup(s) then 0 else if Established(s) then 1 else if Closing(s) then 2 else 3
  }

  /** Failed and Cancelling are for calls that were never established. */
  predicate Allowed(s: State, s': State) {
    Phase(s) <= Phase(s') && (s'.Failed? && s != s' ==> Setup(s)) &&
    (s'.UacCancelling? && !s.UacCancelling? ==> Setup(s)) &&
    (CalleeSide(s') ==> CalleeSide(s) || s.UacIdle? || s.NoState?)
  }

  predicate CallerSide(s: State) { s.UasTrying? || s.UasRinging? || s.UasRingingRel? }

  predicate CalleeSide(s: State) { s.UacTrying? || s.UacRinging? || s.UacCancelling? }

  predicate InRole(o: Origin, s: State) {
    (CallerSide(s) ==> o == Caller) && (CalleeSide(s) ==> o == Callee) &&
    (s.NoState? || s.UasIdle? || s.UacIdle? ==> o == Nobody) && (Established(s) || s.Failed? ==> o != Nobody)
  }

  /** A call never changes its direction. */
  predicate SameRole(u: Ua, u': Ua) { u.call.origin != Nobody ==> u'.call.origin == u.call.origin }

  /** A call that goes out has no INVITE to answer. */
  predicate OpenOk(u: Ua) { CalleeSide(u.st) || u.st.UacIdle? || u.st.NoState? ==> u.call.open == Answered }

  // ---------------------------------------------------------------- timers

  predicate LimitsOk(u: Ua) {
    match u.stamps.setup
    case None => u.limits == Limits(None, None, None)
    case Some(t) =>
      u.limits.np == ProgressLimit(u.cfg, t) && u.limits.ex == ExpireLimit(u.cfg, t) &&
      (u.limits.nr.Some? ==> u.limits.nr == ReplyLimit(u.cfg, t))
  }

  predicate AtMostOneTimer(t: SetupTimers) {
    (t.noReply.Some? ==> t.noProgress.None? && t.expire.None?) && (t.noProgress.Some? ==> t.expire.None?)
  }

  /** Which timers a state may find armed; a CANCEL leaves those of the setup running. */
  predicate TimersFit(s: State, t: SetupTimers) {
    (t.noReply.Some? ==> s.UacTrying?) &&
    (t.noProgress.Some? ==> s.UacTrying? || s.UasTrying? || s.Disconnected?) &&
    (t.expire.Some? ==> Setup(s) || s.UasPreConnect? || s.Disconnected?) &&
    (s.NoState? || s.UasIdle? || s.UacIdle? ==> t == NO_TIMERS)
  }

  predicate DeadlinesOk(u: Ua) {
    (u.timers.noReply.Some? ==> u.timers.noReply == u.limits.nr) &&
    (u.timers.noProgress.Some? ==> u.timers.noProgress == u.limits.np) &&
    (u.timers.expire.Some? ==> u.limits.ex.Some? && (u.cfg.expireStartsOnSetup ==> u.timers.expire == u.limits.ex))
  }

  predicate TimersOk(u: Ua) {
    LimitsOk(u) && AtMostOneTimer(u.timers) && DeadlinesOk(u) && (u.st.NoState? ==> u.stamps.setup.None?)
  }

  /** The deadline of the expiry timer counts from the setup of the call, or from no earlier. */
  predicate CountsFromSetup(u: Ua, start: int) {
    u.cfg.expireStartsOnSetup || (u.stamps.setup.Some? && u.stamps.setup.value <= start)
  }

  /** A timer is only replaced by a later one in the order no-reply, no-progress, expiry, whose
      deadline is strictly later; one that stays armed keeps its deadline. */
  predicate Escalates(u: Ua, u': Ua, start: int) {
    var t, t' := u.timers, u'.timers;
    (t.noReply.Some? ==>
       (t'.noReply.Some? ==> t'.noReply == t.noReply) &&
       (t'.noProgress.Some? ==> t.noReply.value < t'.noProgress.value) &&
       (t'.expire.Some? && CountsFromSetup(u, start) ==> t.noReply.value < t'.expire.value)) &&
    (t.noProgress.Some? ==>
       t'.noReply.None? && (t'.noProgress.Some? ==> t'.noProgress == t.noProgress) &&
       (t'.expire.Some? && CountsFromSetup(u, start) ==> t.noProgress.value < t'.expire.value)) &&
    (t.expire.Some? ==>
       t'.noReply.None? && t'.noProgress.None? && (t'.expire.Some? ==> t'.expire == t.expire))
  }

  // ---------------------------------------------------------------- events for the controller

  predicate Increasing(s: seq<CCEvent>) { forall i, j :: 0 <= i < j < |s| ==> s[i].seqNo < s[j].seqNo }

  /** The events created for the controller so far: handed over, or waiting. */
  function Sent(u: Ua): seq<CCEvent> { u.q.outbox + u.q.equeue }

  /** No event is lost, overtaken or handed over twice. */
  predicate Carries(q: Queue, q': Queue) {
    q.outbox + q.equeue <= q'.outbox + q'.equeue && q.outbox <= q'.outbox && q.nextSeq <= q'.nextSeq
  }

  predicate Numbered(s: seq<CCEvent>, limit: int) { forall k :: 0 <= k < |s| ==> 1 <= s[k].seqNo < limit }

  predicate QueueOk(q: Queue) {
    Increasing(q.outbox + q.equeue) && 1 <= q.nextSeq && Numbered(q.outbox + q.equeue, q.nextSeq) &&
    q.elastSeq == (if q.outbox == [] then -1 else q.outbox[|q.outbox| - 1].seqNo)
  }

  // ---------------------------------------------------------------- callbacks

  predicate Ending(c: Cb) { c.DiscCb? || c.FailCb? }

  function Endings(cs: seq<Cb>): nat {
    if cs == [] then 0 else (if Ending(cs[0]) then 1 else 0) + Endings(cs[1..])
  }

  lemma {:induction false} EndingsAppend(a: seq<Cb>, b: seq<Cb>)
    ensures Endings(a + b) == Endings(a) + Endings(b)
  {
    if a == [] {
      assert a + b == b;
    } else {
      assert (a + b)[1..] == a[1..] + b;
      EndingsAppend(a[1..], b);
    }
  }

  function Leaves(s: State, s': State): nat { if LiveState(s) && !LiveState(s') then 1 else 0 }
}
