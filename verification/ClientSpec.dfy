/** What each handler of a client transaction does.  Times are milliseconds. */
module ClientSpec {
  import opened Messages

  const T1: int := 500
  const TIMER_B: int := 32000
  const TIMER_C: int := 32000
  const TIMER_G: int := 64000

  datatype TxState = Trying | Ringing | Terminated | UAck

  datatype Timers = Timers(a: Option<int>, b: Option<int>, c: Option<int>, g: Option<int>)

  const NO_TIMERS: Timers := Timers(None, None, None, None)

  datatype Cli = Cli(
    live: bool, hdr: Hdr, state: TxState, tout: int, timers: Timers, expires: int,
    receiver: bool, uack: bool, cancelPending: bool, seen: set<RTID>, lastRseq: int)
  {
    predicate Invite() { hdr.sipMethod == INVITE }
  }

  datatype Out =
    | Transmit(retransmission: bool)
    | Deliver(resp: Response)
    | BeginCancel
    | SendAck
    | Unregister

  datatype Step = Step(s: Cli, outs: seq<Out>)

  const R408: Response := Response(408, EMPTY, None, None)

  /** Created, registered and begun; `expires` only matters to an INVITE. */
  function Begin(h: Hdr, expires: int, receiver: bool, now: int): Step {
    Step(Cli(true, h, Trying, T1, NO_TIMERS.(a := Some(now + T1), b := Some(now + TIMER_B)),
             if h.sipMethod == INVITE then expires else 32000, receiver, false, false, {}, 0),
         [Transmit(false)])
  }

  function Cleanup(s: Cli): Cli { s.(live := false, timers := NO_TIMERS, receiver := false) }

  function DeliverTo(s: Cli, r: Response): seq<Out> { if s.receiver then [Deliver(r)] else [] }

  function ReplyRtid(s: Cli, rseq: int): RTID { RTIdOf(s.hdr, rseq, s.hdr.sipMethod) }

  /** A reliable provisional response that was seen before. */
  predicate SeenBefore(s: Cli, r: Response) {
    Provisional(r) && r.rseq.Some? && ReplyRtid(s, r.rseq.value) in s.seen
  }

  function MarkSeen(s: Cli, r: Response): Cli {
    if Provisional(r) && r.rseq.Some? then s.(seen := s.seen + {ReplyRtid(s, r.rseq.value)}) else s
  }

  function StopWaiting(s: Cli): Cli {
    s.(timers := s.timers.(a := if s.state == Trying then None else s.timers.a, b := None))
  }

  function ProcessProvisional(s: Cli, r: Response, now: int): Step {
    var s1 := s.(timers := s.timers.(b := Some(now + s.expires)));
    if s.state == Trying then
      Step(s1.(state := Ringing, cancelPending := false),
           (if s.cancelPending then [BeginCancel] else []) + DeliverTo(s, r))
    else Step(s1, DeliverTo(s, r))
  }

  /** `wantUack`: the receiver asks for user-ACK mode while it is handed the response. */
  function ProcessFinal(s: Cli, r: Response, wantUack: bool, now: int): Step {
    var s1 := s.(uack := s.uack || (s.receiver && wantUack));
    if s.Invite() && s1.uack then
      Step(s1.(state := UAck, timers := s.timers.(g := Some(now + TIMER_G))), DeliverTo(s, r))
    else
      Step(Cleanup(s1), DeliverTo(s, r) + (if s.Invite() then [SendAck] else []) + [Unregister])
  }

  /** Another final response in user-ACK mode starts timer G while it is armed. */
  predicate RestartsG(s: Cli, r: Response, wantUack: bool) {
    s.live && s.state != Terminated && Final(r) && s.Invite() && (s.uack || (s.receiver && wantUack)) && s.timers.g.Some?
  }

  function IncomingResponse(s: Cli, r: Response, wantUack: bool, now: int): Step {
    if !s.live || s.state == Terminated || SeenBefore(s, r) then Step(s, [])
    else
      var s1 := StopWaiting(MarkSeen(s, r));
      if r.code < 200 then ProcessProvisional(s1, r, now) else ProcessFinal(s1, r, wantUack, now)
  }

  function TimerA(s: Cli, now: int): Step {
    if !s.live then Step(s, [])
    else Step(s.(tout := 2 * s.tout, timers := s.timers.(a := Some(now + 2 * s.tout))), [Transmit(true)])
  }

  function TimerB(s: Cli, now: int): Step {
    if !s.live then Step(s, [])
    else Step(s.(state := Terminated, timers := s.timers.(a := None, b := None, c := Some(now + TIMER_C))),
              DeliverTo(s, R408))
  }

  function TimerC(s: Cli): Step {
    if !s.live then Step(s, []) else Step(Cleanup(s), [Unregister])
  }

  function TimerG(s: Cli): Step {
    if !s.live then Step(s, []) else Step(s.(timers := s.timers.(g := None)), [])
  }

  function Cancel(s: Cli): Step {
    if !s.live then Step(s, [])
    else if s.state != Ringing then Step(s.(cancelPending := true), [])
    else Step(s, [BeginCancel])
  }

  /** `SendACK`, called for a transaction in user-ACK mode. */
  function SendACK(s: Cli): Step {
    Step(Cleanup(s), if s.live then [SendAck, Unregister] else [])
  }

  predicate CheckRSeqOk(s: Cli, rseq: int) { s.lastRseq == 0 || s.lastRseq + 1 == rseq }

  function CheckRSeq(s: Cli, rseq: int): Cli {
    if CheckRSeqOk(s, rseq) then s.(lastRseq := rseq) else s
  }
}
