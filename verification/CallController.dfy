/** The controller of the simple B2BUA as an object that joins two agents. */
module CallControllers {
  import opened Messages
  import opened UaSpec
  import opened Relay
  import opened UserAgents

  class CallController {
    const cfgO: Config
    const uaA: UserAgent
    var uaO: UserAgent?
    /** How many of the events of each agent were dealt with. */
    var doneA: nat
    var doneO: nat
    ghost var answered: bool
    ghost var established: bool
    ghost var strays: nat

    ghost predicate Valid()
      reads this
    {
      uaO != uaA
    }

    ghost function Abs(): World
      reads this, uaA, uaO
    {
      World(Leg(uaA.Abs(), doneA), if uaO == null then None else Some(Leg(uaO.Abs(), doneO)), cfgO, answered, established,
            strays)
    }

    constructor (cfgA: Config, cfgO: Config, nextSeq: int)
      ensures Valid() && Abs() == Initial(cfgA, cfgO, nextSeq) && fresh(uaA)
    {
      this.cfgO := cfgO;
      uaA := new UserAgent(cfgA, nextSeq);
      uaO, doneA, doneO := null, 0, 0;
      answered, established, strays := false, false, 0;
    }

    /** The counter that numbers the events is common to all agents. */
    method Share(from: UserAgent, to: UserAgent)
      requires from != to
      modifies to`q
      ensures to.q == old(to.q).(nextSeq := from.q.nextSeq)
    {
      to.q := to.q.(nextSeq := from.q.nextSeq);
    }

    /** An event of the callee's agent goes to the caller's. */
    method RecvEventFromO(e: CCEvent, now: int)
      requires Valid() && uaO != null
      modifies uaA, uaO`q
      ensures Valid() && Abs() == Passed(old(Abs()), LegO, e, now)
    {
      hide RecvEvent;
      var _ := uaA.DispatchEvent(e, now);
      Share(uaA, uaO);
    }

    /** An event of the caller's agent goes to the callee's, which the first attempt creates. */
    method RecvEventFromA(e: CCEvent, now: int)
      requires Valid()
      modifies this`uaO, this`doneO, this`established, uaA, uaO
      ensures Valid() && (uaO == old(uaO) || fresh(uaO)) && Abs() == Passed(old(Abs()), LegA, e, now)
    {
      hide RecvEvent;
      if uaO == null {
        if !e.kind.Try? {
          var own := uaA.NewEvent(Disconnect(false), e.rtime);
          var _ := uaA.DispatchEvent(own, now);
          return;
        }
        uaO := new UserAgent(cfgO, uaA.q.nextSeq);
        doneO := 0;
      }
      var _ := uaO.DispatchEvent(e, now);
      established := established || Established(uaO.st);
      Share(uaO, uaA);
    }
  }
}
