/** The client transaction as a mutable object.  Every handler is proved to do what `ClientSpec` says. */
module ClientTransactions {
  import opened Messages
  import opened Timeouts
  import Spec = ClientSpec

  class ClientTransaction {
    const hdr: Hdr
    const expires: int
    var registered: bool          // sip_tm is still set
    var state: Spec.TxState
    var tout: int
    var timers: Spec.Timers
    var respReceiver: bool
    var uack: bool
    var cancelPending: bool
    var seenRseqs: set<RTID>
    var lastRseq: int
    /** What the transaction handed to the network, its receiver and the manager. */
    ghost var outs: seq<Spec.Out>
    /** The `Timeout` objects of `teA`, `teB`, `teC` and `teG`. */
    ghost var objA: Field
    ghost var objB: Field
    ghost var objC: Field
    ghost var objG: Field

    /** No `Timeout` was cancelled twice, and none of timers A, B and C that still waits was lost. */
    ghost predicate TimeoutsFine()
      reads this`timers, this`objA, this`objB, this`objC, this`objG
    {
      Fine(objA, timers.a.Some?) && Fine(objB, timers.b.Some?) && Fine(objC, timers.c.Some?) && FineG()
    }

    ghost predicate FineG()
      reads this`timers, this`objG
    {
      Once(objG) && (objG.held.Some? <==> timers.g.Some?) && (objG.held.Some? ==> Waits(objG))
    }

    ghost function Abs(): Spec.Cli
      reads this
    {
      Spec.Cli(registered, hdr, state, tout, timers, expires, respReceiver, uack, cancelPending, seenRseqs, lastRseq)
    }

    /** The handler did what `st` says, and lost no `Timeout` that still waits. */
    twostate predicate Did(st: Spec.Step)
      reads this
    {
      DidLosing(st, false)
    }

    /** `lost`: the object of timer G was overwritten while it waited. */
    twostate predicate DidLosing(st: Spec.Step, lost: bool)
      reads this
    {
      Abs() == st.s && outs == old(outs) + st.outs && Kept(lost)
    }

    twostate predicate Kept(lost: bool)
      reads this`timers, this`objA, this`objB, this`objC, this`objG
    {
      old(TimeoutsFine()) ==> TimeoutsFine() && (old(NoOrphans(objG)) ==> (NoOrphans(objG) <==> !lost))
    }

    /** Creation, `StartTimers` and `TransmitData`. */
    constructor (hdr: Hdr, expires: int, receiver: bool, now: int)
      ensures var st := Spec.Begin(hdr, expires, receiver, now); Abs() == st.s && outs == st.outs
      ensures TimeoutsFine() && NoOrphans(objG)
    {
      this.hdr, this.expires := hdr, if hdr.sipMethod == INVITE then expires else 32000;
      registered, state, tout, respReceiver := true, Spec.Trying, 500, receiver;
      timers := Spec.Timers(Some(now + 500), Some(now + 32000), None, None);
      uack, cancelPending, seenRseqs, lastRseq := false, false, {}, 0;
      outs := [Spec.Transmit(false)];
      objA, objB, objC, objG := Started(UNUSED), Started(UNUSED), UNUSED, UNUSED;
    }

    method CancelTeA()
      modifies this`timers, this`objA
      ensures timers == old(timers).(a := None) && Kept(false)
    {
      if timers.a.Some? {
        objA := Cancelled(objA);
        timers := timers.(a := None);
      }
    }

    method CancelTeB()
      modifies this`timers, this`objB
      ensures timers == old(timers).(b := None) && Kept(false)
    {
      if timers.b.Some? {
        objB := Cancelled(objB);
        timers := timers.(b := None);
      }
    }

    method CancelTeC()
      modifies this`timers, this`objC
      ensures timers == old(timers).(c := None) && Kept(false)
    {
      if timers.c.Some? {
        objC := Cancelled(objC);
        timers := timers.(c := None);
      }
    }

    method CancelTeG()
      modifies this`timers, this`objG
      ensures timers == old(timers).(g := None) && Kept(false)
    {
      if timers.g.Some? {
        objG := Cancelled(objG);
        timers := timers.(g := None);
      }
    }

    method StartTeB(deadline: int)
      modifies this`timers, this`objB
      ensures timers == old(timers).(b := Some(deadline)) && Kept(false)
    {
      if timers.b.Some? {
        objB := Cancelled(objB);
      }
      objB := Started(objB);
      timers := timers.(b := Some(deadline));
    }

    method StartTeC(deadline: int)
      modifies this`timers, this`objC
      ensures timers == old(timers).(c := Some(deadline)) && Kept(false)
    {
      if timers.c.Some? {
        objC := Cancelled(objC);
      }
      objC := Started(objC);
      timers := timers.(c := Some(deadline));
    }

    /** Timer A fired; a new object takes the place of the one that did. */
    method RestartTeA(deadline: int)
      requires timers.a.Some?
      modifies this`timers, this`objA
      ensures timers == old(timers).(a := Some(deadline)) && Kept(false)
    {
      objA := Started(Fired(objA));
      timers := timers.(a := Some(deadline));
    }

    /** Timer G is started without a look at the field. */
    method StartTeG(deadline: int)
      modifies this`timers, this`objG
      ensures timers == old(timers).(g := Some(deadline)) && Kept(old(timers.g.Some?))
    {
      if TimeoutsFine() { FieldKeeps(objG, DoStart); }
      objG := Started(objG);
      timers := timers.(g := Some(deadline));
    }

    method FireTeB()
      modifies this`objB
      ensures Kept(false)
    {
      objB := Fired(objB);
    }

    method FireTeC()
      modifies this`objC
      ensures Kept(false)
    {
      objC := Fired(objC);
    }

    method Cleanup()
      modifies this
      ensures Abs() == Spec.Cleanup(old(Abs())) && outs == old(outs) && Kept(false)
    {
      hide TimeoutsFine, NoOrphans;
      registered := false;
      CancelTeA();
      respReceiver := false;
      CancelTeB();
      CancelTeC();
      CancelTeG();
    }

    method RecvResponse(r: Response)
      modifies this`outs
      ensures outs == old(outs) + Spec.DeliverTo(Abs(), r)
    {
      if respReceiver { outs := outs + [Spec.Deliver(r)]; }
    }

    method StopWaiting()
      modifies this`timers, this`objA, this`objB
      ensures Abs() == Spec.StopWaiting(old(Abs())) && Kept(false)
    {
      hide TimeoutsFine, NoOrphans;
      if state == Spec.Trying {
        CancelTeA();
      }
      CancelTeB();
    }

    method IncomingResponse(r: Response, wantUack: bool, now: int)
      modifies this
      ensures DidLosing(Spec.IncomingResponse(old(Abs()), r, wantUack, now), Spec.RestartsG(old(Abs()), r, wantUack))
    {
      if !registered || state == Spec.Terminated { return; }
      hide Spec.ProcessProvisional, Spec.ProcessFinal, TimeoutsFine, NoOrphans;
      if 100 < r.code < 200 && r.rseq.Some? {
        var rskey := RTIdOf(hdr, r.rseq.value, hdr.sipMethod);
        if rskey in seenRseqs { return; }
        seenRseqs := seenRseqs + {rskey};
      }
      StopWaiting();
      assert Abs() == Spec.StopWaiting(Spec.MarkSeen(old(Abs()), r));
      if r.code < 200 {
        ProcessProvisionalResponse(r, now);
      } else {
        ProcessFinalResponse(r, wantUack, now);
      }
    }

    method ProcessProvisionalResponse(r: Response, now: int)
      modifies this
      ensures Did(Spec.ProcessProvisional(old(Abs()), r, now))
    {
      hide TimeoutsFine, NoOrphans;
      if state == Spec.Trying {
        state := Spec.Ringing;
        if cancelPending {
          outs := outs + [Spec.BeginCancel];
          cancelPending := false;
        }
      }
      StartTeB(now + expires);
      RecvResponse(r);
    }

    /** The receiver may turn user-ACK mode on while it is handed the response. */
    method ProcessFinalResponse(r: Response, wantUack: bool, now: int)
      modifies this
      ensures DidLosing(Spec.ProcessFinal(old(Abs()), r, wantUack, now),
                        hdr.sipMethod == INVITE && old(uack || (respReceiver && wantUack)) && old(timers.g.Some?))
    {
      hide TimeoutsFine, NoOrphans;
      RecvResponse(r);
      if respReceiver && wantUack { uack := true; }
      if hdr.sipMethod == INVITE {
        if uack {
          state := Spec.UAck;
          StartTeG(now + 64000);
          return;
        }
        outs := outs + [Spec.SendAck];
      }
      outs := outs + [Spec.Unregister];
      Cleanup();
    }

    method TimerA(now: int)
      requires timers.a.Some?
      modifies this
      ensures Did(Spec.TimerA(old(Abs()), now))
    {
      if registered {
        outs := outs + [Spec.Transmit(true)];
        tout := tout * 2;
        RestartTeA(now + tout);
      }
    }

    method TimerB(now: int)
      modifies this
      ensures Did(Spec.TimerB(old(Abs()), now))
    {
      if !registered { return; }
      hide TimeoutsFine, NoOrphans;
      FireTeB();
      CancelTeA();
      CancelTeB();
      state := Spec.Terminated;
      StartTeC(now + 32000);
      RecvResponse(Spec.R408);
    }

    method TimerC()
      modifies this
      ensures Did(Spec.TimerC(old(Abs())))
    {
      hide TimeoutsFine, NoOrphans;
      FireTeC();
      if registered {
        outs := outs + [Spec.Unregister];
        Cleanup();
      }
    }

    method TimerG()
      modifies this
      ensures Did(Spec.TimerG(old(Abs())))
    {
      if registered {
        objG := Emptied(Fired(objG));
        timers := timers.(g := None);
      }
    }

    method Cancel()
      modifies this
      ensures Did(Spec.Cancel(old(Abs())))
    {
      if !registered { return; }
      if state != Spec.Ringing {
        cancelPending := true;
      } else {
        outs := outs + [Spec.BeginCancel];
      }
    }

    method SendACK()
      modifies this
      ensures Did(Spec.SendACK(old(Abs())))
    {
      hide TimeoutsFine, NoOrphans;
      CancelTeG();
      if registered {
        outs := outs + [Spec.SendAck];
        outs := outs + [Spec.Unregister];
      }
      Cleanup();
    }

    method CheckRSeq(rseq: int) returns (ok: bool)
      modifies this`lastRseq
      ensures Abs() == Spec.CheckRSeq(old(Abs()), rseq) && ok == Spec.CheckRSeqOk(old(Abs()), rseq)
    {
      if lastRseq != 0 && lastRseq + 1 != rseq {
        return false;
      }
      lastRseq := rseq;
      return true;
    }
  }
}
