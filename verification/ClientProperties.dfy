/** Whole-run properties of one client transaction: one final response, deferred CANCEL, timers. */
module ClientProperties {
  import opened Messages
  import opened ClientSpec
  import Backoff

  datatype Input =
    | Recv(resp: Response, wantUack: bool)
    | FireA | FireB | FireC | FireG
    | AskCancel
    | AskAck
    | AskCheckRSeq(rseq: int)

  datatype Event = Event(input: Input, at: int)

  datatype Log = Log(out: Out, at: int)

  datatype RunResult = RunResult(s: Cli, trace: seq<Log>)

  predicate Due(timer: Option<int>, now: int) { timer.Some? && timer.value <= now }

  /** Timers fire while armed and not early; the user agent acknowledges only a transaction that
      waits for its ACK. */
  predicate Enabled(s: Cli, e: Event) {
    match e.input
    case Recv(r, _) => r.code >= 100
    case FireA => Due(s.timers.a, e.at)
    case FireB => Due(s.timers.b, e.at)
    case FireC => Due(s.timers.c, e.at)
    case FireG => Due(s.timers.g, e.at)
    case AskAck => s.state == UAck
    case _ => true
  }

  /** Which timers are armed. */
  predicate Inv(s: Cli) {
    && (s.timers.a.Some? <==> s.live && s.state == Trying)
    && (s.timers.c.Some? <==> s.live && s.state == Terminated)
    && (s.live && (s.state == Trying || s.state == Ringing) ==> s.timers.b.Some?)
    && (s.live && s.state == Terminated ==> s.timers.b.None?)
    && (!s.live ==> s.timers == NO_TIMERS && !s.receiver)
    && (s.live && s.state == UAck ==> s.uack && s.Invite())
    && (s.timers.g.Some? ==> s.uack)
  }

  function Apply(s: Cli, e: Event): Step {
    if !Enabled(s, e) then Step(s, [])
    else match e.input
      case Recv(r, wantUack) => IncomingResponse(s, r, wantUack, e.at)
      case FireA => TimerA(s, e.at)
      case FireB => TimerB(s, e.at)
      case FireC => TimerC(s)
      case FireG => TimerG(s)
      case AskCancel => Cancel(s)
      case AskAck => SendACK(s)
      case AskCheckRSeq(rseq) => Step(CheckRSeq(s, rseq), [])
  }

  /** Every registered transaction has timer B while it waits for a response and timer C once it
      gave up, timer A exactly until the first response, and none after its cleanup. */
  lemma ApplyKeepsInv(s: Cli, e: Event)
    requires Inv(s)
    ensures Inv(Apply(s, e).s)
  {
    if Enabled(s, e) && e.input.Recv? {
      RecvKeepsInv(s, e.input.resp, e.input.wantUack, e.at);
      hide IncomingResponse;
    } else {
      OtherKeepsInv(s, e);
    }
  }

  lemma RecvKeepsInv(s: Cli, r: Response, wantUack: bool, now: int)
    requires Inv(s)
    ensures Inv(IncomingResponse(s, r, wantUack, now).s)
  {
  }

  lemma OtherKeepsInv(s: Cli, e: Event)
    requires Inv(s) && (e.input.Recv? ==> !Enabled(s, e))
    ensures Inv(Apply(s, e).s)
  {
    hide IncomingResponse;
  }

  function Stamp(outs: seq<Out>, at: int): (logs: seq<Log>)
    ensures |logs| == |outs|
  {
    seq(|outs|, i requires 0 <= i < |outs| => Log(outs[i], at))
  }

  function Run(s: Cli, evs: seq<Event>): RunResult
    decreases |evs|
  {
    if evs == [] then RunResult(s, [])
    else
      var st := Apply(s, evs[0]);
      var rest := Run(st.s, evs[1..]);
      RunResult(rest.s, Stamp(st.outs, evs[0].at) + rest.trace)
  }

  lemma {:induction false} RunKeepsInv(s: Cli, evs: seq<Event>)
    requires Inv(s)
    ensures Inv(Run(s, evs).s)
    decreases |evs|
  {
    hide Inv, Apply;
    if evs != [] {
      ApplyKeepsInv(s, evs[0]);
      RunKeepsInv(Apply(s, evs[0]).s, evs[1..]);
    }
  }

  // ---------------------------------------------------------------- one final response

  predicate Done(s: Cli) { !s.live || s.state == Terminated }

  predicate DeliversFinal(o: Out) { o.Deliver? && Final(o.resp) }

  lemma DoneStep(s: Cli, e: Event)
    requires Inv(s) && Done(s)
    ensures
      var st := Apply(s, e);
      Done(st.s) && forall i :: 0 <= i < |st.outs| ==> st.outs[i] == Unregister
  {
  }

  /** Once done, a transaction only unregisters itself: nothing is delivered, no CANCEL is begun. */
  lemma {:induction false} AfterDone(s: Cli, evs: seq<Event>)
    requires Inv(s) && Done(s)
    ensures
      var r := Run(s, evs);
      Done(r.s) && forall i :: 0 <= i < |r.trace| ==> r.trace[i].out == Unregister
    decreases |evs|
  {
    hide Inv, Apply;
    if evs != [] {
      ApplyKeepsInv(s, evs[0]);
      DoneStep(s, evs[0]);
      AfterDone(Apply(s, evs[0]).s, evs[1..]);
    }
  }

  predicate NeverUack(evs: seq<Event>) {
    forall i :: 0 <= i < |evs| && evs[i].input.Recv? ==> !evs[i].input.wantUack
  }

  /** A step that delivers a final response delivers nothing else, and leaves the transaction done
      exactly when user-ACK mode is not on. */
  predicate FinalIsLast(s: Cli, st: Step, received: bool) {
    forall i :: 0 <= i < |st.outs| && DeliversFinal(st.outs[i]) ==>
      (Done(st.s) <==> !(st.s.uack && s.Invite() && received)) &&
      forall j :: 0 <= j < |st.outs| && j != i ==> !st.outs[j].Deliver?
  }

  lemma ResponseIsLast(s: Cli, r: Response, wantUack: bool, now: int)
    requires Inv(s)
    ensures
      var st := IncomingResponse(s, r, wantUack, now);
      (st.s.uack ==> s.uack || wantUack) && FinalIsLast(s, st, true)
  {
    if r.code < 200 { } else { }
  }

  lemma FinalStep(s: Cli, e: Event)
    requires Inv(s)
    ensures
      var st := Apply(s, e);
      (st.s.uack ==> s.uack || (e.input.Recv? && e.input.wantUack)) && FinalIsLast(s, st, e.input.Recv?)
  {
    if e.input.Recv? { ResponseIsLast(s, e.input.resp, e.input.wantUack, e.at); }
    hide IncomingResponse;
  }

  /** At most one final response reaches the receiver, counting the 408 of timer B, and nothing is
      delivered after it, for every interleaving of responses, timers and CANCEL requests. */
  lemma {:induction false} ClientOutcome(s: Cli, evs: seq<Event>)
    requires Inv(s) && !s.uack && NeverUack(evs)
    ensures
      var tr := Run(s, evs).trace;
      forall i, j :: 0 <= i < j < |tr| && DeliversFinal(tr[i].out) ==> !tr[j].out.Deliver?
    decreases |evs|
  {
    hide Inv, Apply;
    if evs != [] {
      ApplyKeepsInv(s, evs[0]);
      FinalStep(s, evs[0]);
      var st := Apply(s, evs[0]);
      var first, rest := Stamp(st.outs, evs[0].at), Run(st.s, evs[1..]).trace;
      ClientOutcome(st.s, evs[1..]);
      if Done(st.s) { AfterDone(st.s, evs[1..]); }
      var tr := first + rest;
      forall i, j | 0 <= i < j < |tr| && DeliversFinal(tr[i].out) ensures !tr[j].out.Deliver? {
        if i < |first| {
          assert DeliversFinal(st.outs[i]);
          if j >= |first| { assert tr[j] == rest[j - |first|]; } else { assert tr[j].out == st.outs[j]; }
        } else {
          assert tr[i] == rest[i - |first|] && tr[j] == rest[j - |first|];
        }
      }
    }
  }

  /** In user-ACK mode the guard at the top of `IncomingResponse` lets a second final through. */
  lemma UackDeliversTwice(s: Cli, r1: Response, r2: Response, now: int)
    requires Inv(s) && s.live && s.Invite() && s.receiver && s.state != Terminated && Final(r1) && Final(r2)
    ensures
      var st1 := Apply(s, Event(Recv(r1, true), now));
      var st2 := Apply(st1.s, Event(Recv(r2, true), now));
      st1.outs == [Deliver(r1)] && st2.outs == [Deliver(r2)]
  {
  }

  // ---------------------------------------------------------------- what is delivered

  /** A final response that finds the transaction undecided reaches the receiver, once and before anything
      else is done; an INVITE is then acknowledged once, unless the user does that, and nothing else is. */
  lemma FinalHandled(s: Cli, r: Response, wantUack: bool, now: int)
    requires Inv(s) && !Done(s) && Final(r)
    ensures
      var st := IncomingResponse(s, r, wantUack, now);
      var byUser := s.Invite() && (s.uack || (s.receiver && wantUack));
      && multiset(st.outs)[Deliver(r)] == (if s.receiver then 1 else 0)
      && (s.receiver ==> st.outs != [] && st.outs[0] == Deliver(r))
      && multiset(st.outs)[SendAck] == (if s.Invite() && !byUser then 1 else 0)
      && multiset(st.outs)[Unregister] == (if byUser then 0 else 1)
      && (forall o <- st.outs :: o in {Deliver(r), SendAck, Unregister})
      && (byUser ==> st.s.live && st.s.state == UAck && st.s.timers == Timers(None, None, None, Some(now + 64000)))
      && (!byUser ==> !st.s.live)
  {
  }

  /** A provisional response reaches the receiver unless it is a reliable one that was seen before, and
      timer B starts anew. */
  lemma ProvisionalHandled(s: Cli, r: Response, wantUack: bool, now: int)
    requires Inv(s) && !Done(s) && !Final(r)
    ensures
      var st := IncomingResponse(s, r, wantUack, now);
      && multiset(st.outs)[Deliver(r)] == (if s.receiver && !SeenBefore(s, r) then 1 else 0)
      && (forall o <- st.outs :: o in {Deliver(r), BeginCancel})
      && st.s.live && (!SeenBefore(s, r) ==> st.s.timers.b == Some(now + s.expires) && (s.state == Trying ==> st.s.timers.a.None?))
      && (r.rseq.Some? && Provisional(r) ==> SeenBefore(st.s, r)) && s.seen <= st.s.seen
  {
    hide Inv;
    if !SeenBefore(s, r) {
      var outs := IncomingResponse(s, r, wantUack, now).outs;
      var asked := if s.state == Trying && s.cancelPending then [BeginCancel] else [];
      assert outs == asked + (if s.receiver then [Deliver(r)] else []);
      assert multiset(outs) == multiset(asked) + multiset(if s.receiver then [Deliver(r)] else []);
    }
  }

  /** What is delivered when timer B ends the wait. */
  lemma TimeoutHandled(s: Cli, now: int)
    requires Inv(s) && s.live
    ensures
      var st := TimerB(s, now);
      && st.s.state == Terminated && st.s.timers == Timers(None, None, Some(now + 32000), s.timers.g)
      && st.outs == (if s.receiver then [Deliver(Response(408, EMPTY, None, None))] else [])
  {
  }

  /** The other timers and what the user asks for: timer C ends the transaction, timer G only stops, a
      CANCEL is begun while it rings and remembered otherwise, and the user's ACK ends it. */
  lemma UserHandled(s: Cli)
    requires Inv(s) && s.live
    ensures TimerC(s).outs == [Unregister] && !TimerC(s).s.live
    ensures TimerG(s).outs == [] && TimerG(s).s == s.(timers := s.timers.(g := None))
    ensures Cancel(s).outs == (if s.state == Ringing then [BeginCancel] else [])
    ensures Cancel(s).s == s.(cancelPending := s.cancelPending || s.state != Ringing)
    ensures SendACK(s).outs == [SendAck, Unregister] && !SendACK(s).s.live
  {
  }

  /** The numbers of reliable provisional responses that are accepted: the first, whatever it is, and then
      each next one; an accepted number is remembered. */
  lemma NumbersAccepted(s: Cli, rseq: int)
    ensures CheckRSeqOk(s, rseq) <==> s.lastRseq == 0 || rseq == s.lastRseq + 1
    ensures CheckRSeq(s, rseq) == if CheckRSeqOk(s, rseq) then s.(lastRseq := rseq) else s
  {
  }

  /** The final responses delivered in a run. */
  function Finals(trace: seq<Log>): seq<Response> {
    if trace == [] then []
    else (if DeliversFinal(trace[0].out) then [trace[0].out.resp] else []) + Finals(trace[1..])
  }

  lemma {:induction false} FinalsConcat(a: seq<Log>, b: seq<Log>)
    ensures Finals(a + b) == Finals(a) + Finals(b)
  {
    if a == [] {
      assert a + b == b;
    } else {
      assert (a + b)[1..] == a[1..] + b;
      FinalsConcat(a[1..], b);
    }
  }

  lemma {:induction false} NoFinals(tr: seq<Log>)
    requires forall i :: 0 <= i < |tr| ==> !DeliversFinal(tr[i].out)
    ensures Finals(tr) == []
  {
    if tr != [] { NoFinals(tr[1..]); }
  }

  /** The event decides the transaction: a final response, or timer B. */
  predicate Decides(s: Cli, e: Event) {
    !Done(s) && Enabled(s, e) && (e.input.FireB? || (e.input.Recv? && Final(e.input.resp)))
  }

  function Verdict(e: Event): Response { if e.input.Recv? then e.input.resp else Response(408, EMPTY, None, None) }

  /** The verdict of the first event of a run that decides. */
  function FirstVerdict(s: Cli, evs: seq<Event>): Option<Response>
    decreases |evs|
  {
    if evs == [] then None
    else if Decides(s, evs[0]) then Some(Verdict(evs[0]))
    else FirstVerdict(Apply(s, evs[0]).s, evs[1..])
  }

  lemma DecidingStep(s: Cli, e: Event)
    requires Inv(s) && !Done(s) && s.receiver && !s.uack && (e.input.Recv? ==> !e.input.wantUack)
    ensures
      var st := Apply(s, e);
      if Decides(s, e) then Done(st.s) && Finals(Stamp(st.outs, e.at)) == [Verdict(e)]
      else Finals(Stamp(st.outs, e.at)) == [] && !st.s.uack && !Done(st.s) && st.s.receiver
  {
    var st := Apply(s, e);
    if Decides(s, e) {
      if e.input.Recv? { FinalHandled(s, e.input.resp, false, e.at); } else { TimeoutHandled(s, e.at); }
      var logs := Stamp(st.outs, e.at);
      assert logs[0].out == Deliver(Verdict(e));
      FinalStep(s, e);
      assert forall i :: 0 < i < |logs| ==> !DeliversFinal(logs[i].out);
      NoFinals(logs[1..]);
    } else {
      if e.input.Recv? && Enabled(s, e) { ProvisionalHandled(s, e.input.resp, false, e.at); }
      UndecidedStep(s, e);
      NoFinals(Stamp(st.outs, e.at));
    }
  }

  lemma UndecidedStep(s: Cli, e: Event)
    requires Inv(s) && !Done(s) && s.receiver && !s.uack && (e.input.Recv? ==> !e.input.wantUack) && !Decides(s, e)
    ensures var st := Apply(s, e);
            !st.s.uack && !Done(st.s) && st.s.receiver && forall o <- st.outs :: !DeliversFinal(o)
  {
    if e.input.Recv? { } else { }
  }

  /** In every run without user-ACK mode the final responses delivered are exactly the first verdict: none
      while nothing decides, and then the response that came, or 408 if timer B came first. */
  lemma {:induction false} ExactlyTheVerdict(s: Cli, evs: seq<Event>)
    requires Inv(s) && !Done(s) && s.receiver && !s.uack && NeverUack(evs)
    ensures Finals(Run(s, evs).trace) == if FirstVerdict(s, evs).Some? then [FirstVerdict(s, evs).value] else []
    decreases |evs|
  {
    hide Inv, Apply, Decides;
    if evs != [] {
      var e, st := evs[0], Apply(s, evs[0]);
      ApplyKeepsInv(s, e);
      DecidingStep(s, e);
      FinalsConcat(Stamp(st.outs, e.at), Run(st.s, evs[1..]).trace);
      if Decides(s, e) {
        AfterDone(st.s, evs[1..]);
        NoFinals(Run(st.s, evs[1..]).trace);
      } else {
        ExactlyTheVerdict(st.s, evs[1..]);
      }
    }
  }

  // ---------------------------------------------------------------- CANCEL

  function Begun(trace: seq<Log>): nat {
    if trace == [] then 0 else (if trace[0].out == BeginCancel then 1 else 0) + Begun(trace[1..])
  }

  lemma {:induction false} BegunConcat(a: seq<Log>, b: seq<Log>)
    ensures Begun(a + b) == Begun(a) + Begun(b)
  {
    if a == [] {
      assert a + b == b;
    } else {
      assert (a + b)[1..] == a[1..] + b;
      BegunConcat(a[1..], b);
    }
  }

  lemma {:induction false} NoneBegun(tr: seq<Log>)
    requires forall i :: 0 <= i < |tr| ==> tr[i].out != BeginCancel
    ensures Begun(tr) == 0
  {
    if tr != [] { NoneBegun(tr[1..]); }
  }

  predicate Waiting(s: Cli) { s.live && s.state == Trying }

  predicate AnyCancel(evs: seq<Event>) { exists i :: 0 <= i < |evs| && evs[i].input == AskCancel }

  /** All prefixes of the run leave the transaction without a response. */
  predicate StaysWaiting(s: Cli, evs: seq<Event>)
    decreases |evs|
  {
    Waiting(s) && (evs == [] || StaysWaiting(Apply(s, evs[0]).s, evs[1..]))
  }

  lemma WaitingStep(s: Cli, e: Event)
    requires Waiting(s) && Waiting(Apply(s, e).s)
    ensures
      var st := Apply(s, e);
      && (st.s.cancelPending <==> s.cancelPending || e.input == AskCancel)
      && (forall i :: 0 <= i < |st.outs| ==> st.outs[i] != BeginCancel)
      && Apply(s, e).s.receiver == s.receiver
  {
  }

  /** While no response has come no CANCEL is begun, however often it is asked for, and the request
      is remembered. */
  lemma {:induction false} CancelDeferred(s: Cli, evs: seq<Event>)
    requires StaysWaiting(s, evs)
    ensures
      var r := Run(s, evs);
      Waiting(r.s) && Begun(r.trace) == 0 && (r.s.cancelPending <==> s.cancelPending || AnyCancel(evs))
    decreases |evs|
  {
    hide Apply;
    if evs != [] {
      var st := Apply(s, evs[0]);
      WaitingStep(s, evs[0]);
      CancelDeferred(st.s, evs[1..]);
      NoneBegun(Stamp(st.outs, evs[0].at));
      BegunConcat(Stamp(st.outs, evs[0].at), Run(st.s, evs[1..]).trace);
      assert AnyCancel(evs) <==> evs[0].input == AskCancel || AnyCancel(evs[1..]) by {
        if AnyCancel(evs[1..]) {
          var i :| 0 <= i < |evs[1..]| && evs[1..][i].input == AskCancel;
          assert evs[i + 1].input == AskCancel;
        }
        if AnyCancel(evs) && evs[0].input != AskCancel {
          var i :| 0 <= i < |evs| && evs[i].input == AskCancel;
          assert evs[1..][i - 1].input == AskCancel;
        }
      }
    }
  }

  /** A transaction whose first response was a final one, or that gave up waiting. */
  predicate Decided(s: Cli) { Done(s) || s.state == UAck }

  lemma DecidedStep(s: Cli, e: Event)
    requires Inv(s) && Decided(s)
    ensures
      var st := Apply(s, e);
      Decided(st.s) && forall i :: 0 <= i < |st.outs| ==> st.outs[i] != BeginCancel
  {
    if e.input.Recv? && e.input.resp.code < 200 { } else { }
  }

  /** Once that is so, in user-ACK mode too, no CANCEL is begun in any run. */
  lemma {:induction false} NoLateCancel(s: Cli, evs: seq<Event>)
    requires Inv(s) && Decided(s)
    ensures Begun(Run(s, evs).trace) == 0
    decreases |evs|
  {
    hide Inv, Apply;
    if evs != [] {
      var st := Apply(s, evs[0]);
      ApplyKeepsInv(s, evs[0]);
      DecidedStep(s, evs[0]);
      NoLateCancel(st.s, evs[1..]);
      NoneBegun(Stamp(st.outs, evs[0].at));
      BegunConcat(Stamp(st.outs, evs[0].at), Run(st.s, evs[1..]).trace);
    }
  }

  /** The response or time-out that ends the wait decides: a provisional response begins exactly one
      CANCEL if any was asked for, anything else begins none, then or ever after. */
  lemma WaitEnds(s: Cli, e: Event, evs: seq<Event>)
    requires Inv(s) && Waiting(s) && !Waiting(Apply(s, e).s)
    ensures
      var st := Apply(s, e);
      if e.input.Recv? && e.input.resp.code < 200
      then st.s.live && st.s.state == Ringing && !st.s.cancelPending &&
           Begun(Stamp(st.outs, e.at)) == (if s.cancelPending then 1 else 0)
      else Decided(st.s) && Begun(Stamp(st.outs, e.at)) == 0 && Begun(Run(st.s, evs).trace) == 0
  {
    ApplyKeepsInv(s, e);
    if e.input.Recv? && e.input.resp.code < 200 {
      ProvisionalEndsWait(s, e);
    } else {
      var st := Apply(s, e);
      NoneBegun(Stamp(st.outs, e.at));
      NoLateCancel(st.s, evs);
    }
  }

  lemma ProvisionalEndsWait(s: Cli, e: Event)
    requires Inv(s) && Waiting(s) && !Waiting(Apply(s, e).s) && e.input.Recv? && e.input.resp.code < 200
    ensures
      var st := Apply(s, e);
      && st.s.live && st.s.state == Ringing && !st.s.cancelPending
      && Begun(Stamp(st.outs, e.at)) == if s.cancelPending then 1 else 0
  {
    var asked := if s.cancelPending then [BeginCancel] else [];
    var told := DeliverTo(s, e.input.resp);
    assert Stamp(asked + told, e.at) == Stamp(asked, e.at) + Stamp(told, e.at);
    BegunConcat(Stamp(asked, e.at), Stamp(told, e.at));
    NoneBegun(Stamp(told, e.at));
    if s.cancelPending { assert Stamp(asked, e.at)[1..] == []; }
  }

  // ---------------------------------------------------------------- retransmission

  function Copies(trace: seq<Log>, before: int): nat {
    if trace == [] then 0
    else (if trace[0].out == Transmit(true) && trace[0].at < before then 1 else 0) + Copies(trace[1..], before)
  }

  lemma {:induction false} CopiesConcat(a: seq<Log>, b: seq<Log>, before: int)
    ensures Copies(a + b, before) == Copies(a, before) + Copies(b, before)
  {
    if a == [] {
      assert a + b == b;
    } else {
      assert (a + b)[1..] == a[1..] + b;
      CopiesConcat(a[1..], b, before);
    }
  }

  lemma {:induction false} NoCopies(tr: seq<Log>, before: int)
    requires forall i :: 0 <= i < |tr| ==> tr[i].out != Transmit(true)
    ensures Copies(tr, before) == 0
  {
    if tr != [] { NoCopies(tr[1..], before); }
  }

  /** A request begun at `t0` whose timer A fired k times. */
  predicate RequestBackoff(s: Cli, t0: int, k: nat) {
    s.timers.a.Some? ==> Backoff.Doubled(t0, k, s.tout, s.timers.a.value)
  }

  /** A response repeats nothing, and only stops timer A. */
  lemma ResponseBackoff(s: Cli, r: Response, wantUack: bool, now: int)
    requires Inv(s)
    ensures var st := IncomingResponse(s, r, wantUack, now);
            (st.s.timers.a.Some? ==> st.s.timers.a == s.timers.a && st.s.tout == s.tout) && Transmit(true) !in st.outs
  {
    if r.code < 200 { } else { }
  }

  lemma RequestBackoffStep(s: Cli, e: Event, t0: int, k: nat)
    requires Inv(s) && RequestBackoff(s, t0, k)
    ensures
      var st := Apply(s, e);
      var fired := Enabled(s, e) && e.input == FireA;
      && RequestBackoff(st.s, t0, if fired then k + 1 else k)
      && (fired ==> st.outs == [Transmit(true)] && (k >= 6 ==> e.at >= t0 + 63500))
      && (!fired ==> forall i :: 0 <= i < |st.outs| ==> st.outs[i] != Transmit(true))
  {
    if e.input.Recv? {
      ResponseBackoff(s, e.input.resp, e.input.wantUack, e.at);
    } else if Enabled(s, e) && e.input == FireA {
      Backoff.Redouble(t0, k, s.tout, s.timers.a.value, e.at);
    }
    hide IncomingResponse, Backoff.Doubled;
  }

  /** With the first transmission at most seven copies of a request leave in the 32 seconds until
      timer B, in every run. */
  lemma {:induction false} RequestCopies(s: Cli, evs: seq<Event>, t0: int, k: nat)
    requires Inv(s) && RequestBackoff(s, t0, k)
    ensures Copies(Run(s, evs).trace, t0 + TIMER_B) <= if k < 6 then 6 - k else 0
    decreases |evs|
  {
    hide Inv, Apply;
    if evs != [] {
      ApplyKeepsInv(s, evs[0]);
      RequestBackoffStep(s, evs[0], t0, k);
      var st := Apply(s, evs[0]);
      var first := Stamp(st.outs, evs[0].at);
      var fired := Enabled(s, evs[0]) && evs[0].input == FireA;
      RequestCopies(st.s, evs[1..], t0, if fired then k + 1 else k);
      CopiesConcat(first, Run(st.s, evs[1..]).trace, t0 + TIMER_B);
      if fired { assert first[1..] == []; } else { NoCopies(first, t0 + TIMER_B); }
    }
  }

  lemma BeginStarts(h: Hdr, expires: int, receiver: bool, t0: int)
    ensures
      var s := Begin(h, expires, receiver, t0).s;
      Inv(s) && Waiting(s) && !s.uack && !s.cancelPending && RequestBackoff(s, t0, 0) && s.receiver == receiver &&
      s.timers == Timers(Some(t0 + 500), Some(t0 + 32000), None, None) && s.seen == {} && s.lastRseq == 0 &&
      s.expires == (if h.sipMethod == INVITE then expires else 32000) && Begin(h, expires, receiver, t0).outs == [Transmit(false)]
  {
  }
}
