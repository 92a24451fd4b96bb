/** The server transaction and the manager's tables as mutable objects.  Every handler is proved to
    do what `ServerSpec` says. */
module ServerTransactions {
  import opened Messages
  import opened Timeouts
  import Spec = ServerSpec
  import Properties = ServerProperties

  /** `tserver` and `rtid2tid` of the transaction manager. */
  class TransactionTables {
    var tserver: map<TID, ServerTransaction>
    var rtid2tid: map<RTID, TID>

    ghost function Abs(): Spec.Tables
      reads this
    {
      Spec.Tables(map k | k in tserver :: tserver[k].id, rtid2tid)
    }

    constructor ()
      ensures Abs() == Spec.Tables(map[], map[]) && tserver == map[]
    {
      tserver, rtid2tid := map[], map[];
    }

    method TserverDel(tid: TID)
      modifies this
      ensures Abs() == Spec.TserverDel(old(Abs()), tid) && tserver == old(tserver) - {tid}
    {
      tserver := tserver - {tid};
    }

    method TserverReplace(oldTid: TID, newTid: TID, t: ServerTransaction)
      modifies this
      ensures Abs() == Spec.TserverReplace(old(Abs()), oldTid, newTid, t.id)
      ensures tserver == (old(tserver) - {oldTid})[newTid := t]
    {
      tserver := tserver - {oldTid};
      tserver := tserver[newTid := t];
    }

    method RtidPut(key: RTID, value: TID)
      modifies this
      ensures Abs() == Spec.RtidPut(old(Abs()), key, value) && tserver == old(tserver)
    {
      rtid2tid := rtid2tid[key := value];
    }

    method RtidDel(key: RTID)
      modifies this
      ensures Abs() == Spec.RtidDel(old(Abs()), key) && tserver == old(tserver)
    {
      rtid2tid := rtid2tid - {key};
    }

    method RtidReplace(key: RTID, oldTid: TID, newTid: TID)
      modifies this
      ensures Abs() == Spec.RtidReplace(old(Abs()), key, oldTid, newTid) && tserver == old(tserver)
    {
      if key in rtid2tid && rtid2tid[key] == oldTid {
        rtid2tid := rtid2tid[key := newTid];
      }
    }
  }

  class ServerTransaction {
    const id: Spec.Id
    const hdr: Hdr
    var sipTm: TransactionTables?
    var tid: TID
    var state: Spec.TxState
    var tout: int
    var timers: Spec.Timers
    var data: Option<Response>
    var rel: Spec.Reliable
    var cbs: Spec.Callbacks
    /** What the transaction handed to the network and to the user agent. */
    ghost var outs: seq<Spec.Out>
    /** The `Timeout` objects of `teA`, `teD`, `teE` and of the response in flight. */
    ghost var objA: Field
    ghost var objD: Field
    ghost var objE: Field
    ghost var objPrack: Field

    /** No `Timeout` was cancelled twice, and none that still waits was lost. */
    ghost predicate TimeoutsFine()
      reads this`timers, this`rel, this`objA, this`objD, this`objE, this`objPrack
    {
      Fine(objA, timers.a.Some?) && Fine(objD, timers.d.Some?) && Fine(objE, timers.e.Some?) && Fine(objPrack, rel.inflight.Some?)
    }

    ghost function Abs(): Spec.Srv
      reads this
    {
      Spec.Srv(sipTm != null, hdr, tid, state, tout, timers, data, rel, cbs)
    }

    ghost predicate Valid()
      reads this
    {
      Properties.Inv(Abs())
    }

    constructor (id: Spec.Id, hdr: Hdr, sipTm: TransactionTables, expires: int, now: int)
      ensures this.sipTm == sipTm && this.id == id && Abs() == Spec.New(hdr, expires, now) && outs == []
      ensures TimeoutsFine()
    {
      this.id, this.hdr, this.sipTm, tid, state, tout := id, hdr, sipTm, ServerKey(hdr), Spec.Trying, Spec.T1;
      timers := Spec.NO_TIMERS.(e := if hdr.sipMethod == INVITE then Some(now + expires) else None);
      data, rel, cbs, outs := None, Spec.Reliable(false, 1, None), Spec.NO_CALLBACKS, [];
      objA, objD, objE, objPrack := UNUSED, UNUSED, if hdr.sipMethod == INVITE then Started(UNUSED) else UNUSED, UNUSED;
    }

    method CancelTeA()
      modifies this`timers, this`objA
      ensures timers == old(timers).(a := None) && (old(TimeoutsFine()) ==> TimeoutsFine())
    {
      if timers.a.Some? {
        objA := Cancelled(objA);
        timers := timers.(a := None);
      }
    }

    method CancelTeD()
      modifies this`timers, this`objD
      ensures timers == old(timers).(d := None) && (old(TimeoutsFine()) ==> TimeoutsFine())
    {
      if timers.d.Some? {
        objD := Cancelled(objD);
        timers := timers.(d := None);
      }
    }

    method CancelTeE()
      modifies this`timers, this`objE
      ensures timers == old(timers).(e := None) && (old(TimeoutsFine()) ==> TimeoutsFine())
    {
      if timers.e.Some? {
        objE := Cancelled(objE);
        timers := timers.(e := None);
      }
    }

    method StartTeA(deadline: int)
      modifies this`timers, this`objA
      ensures timers == old(timers).(a := Some(deadline)) && (old(TimeoutsFine()) ==> TimeoutsFine())
    {
      if timers.a.Some? {
        objA := Cancelled(objA);
      }
      objA := Started(objA);
      timers := timers.(a := Some(deadline));
    }

    method StartTeD(deadline: int)
      modifies this`timers, this`objD
      ensures timers == old(timers).(d := Some(deadline)) && (old(TimeoutsFine()) ==> TimeoutsFine())
    {
      if timers.d.Some? {
        objD := Cancelled(objD);
      }
      objD := Started(objD);
      timers := timers.(d := Some(deadline));
    }

    /** Timer A fired; a new object takes the place of the one that did. */
    method RestartTeA(deadline: int)
      requires timers.a.Some?
      modifies this`timers, this`objA
      ensures timers == old(timers).(a := Some(deadline)) && (old(TimeoutsFine()) ==> TimeoutsFine())
    {
      objA := Started(Fired(objA));
      timers := timers.(a := Some(deadline));
    }

    method StartPrackTimer(f: Spec.Inflight)
      requires rel.inflight.None?
      modifies this`rel, this`objPrack
      ensures rel == old(rel).(inflight := Some(f)) && (old(TimeoutsFine()) ==> TimeoutsFine())
    {
      objPrack := Started(objPrack);
      rel := rel.(inflight := Some(f));
    }

    method CancelPrackTimer()
      requires rel.inflight.Some?
      modifies this`rel, this`objPrack
      ensures rel == old(rel).(inflight := None) && (old(TimeoutsFine()) ==> TimeoutsFine())
    {
      objPrack := Cancelled(objPrack);
      rel := rel.(inflight := None);
    }

    /** The PRACK timer fired: another takes its place, or none does. */
    method ReplacePrackTimer(f: Option<Spec.Inflight>)
      requires rel.inflight.Some?
      modifies this`rel, this`objPrack
      ensures rel == old(rel).(inflight := f) && (old(TimeoutsFine()) ==> TimeoutsFine())
    {
      objPrack := if f.Some? then Started(Fired(objPrack)) else Emptied(Fired(objPrack));
      rel := rel.(inflight := f);
    }

    method Cleanup()
      modifies this`sipTm, this`timers, this`cbs, this`objA, this`objD, this`objE
      ensures Abs() == Spec.Cleanup(old(Abs())) && sipTm == null && (old(TimeoutsFine()) ==> TimeoutsFine())
    {
      hide Fine;
      sipTm := null;
      CancelTeA();
      cbs := cbs.(cancel := false);
      CancelTeD();
      CancelTeE();
      cbs := cbs.(noack := false);
      cbs := cbs.(ack := false);
      cbs := cbs.(prack := false);
    }

    /** Numbers a reliable provisional response, starts its PRACK timer and remembers the response. */
    method Prepare(r: Response, now: int) returns (sent: Response)
      requires sipTm != null
      modifies this`rel, this`data, this`objPrack, sipTm
      ensures Spec.Prepare(old(sipTm.Abs()), old(Abs()), r, now) == Spec.Prepared(sipTm.Abs(), Abs(), sent)
      ensures sipTm.tserver == old(sipTm.tserver) && (old(TimeoutsFine()) ==> TimeoutsFine())
    {
      hide Fine;
      sent := r;
      if rel.on && 100 < r.code < 200 {
        sent := r.(rseq := Some(rel.rseq));
        var rtid := RTIdOf(hdr, rel.rseq, hdr.sipMethod);
        rel := rel.(rseq := rel.rseq + 1);
        if rel.inflight.None? {
          StartPrackTimer(Spec.Inflight(rtid, 500, now + 500));
        }
        sipTm.RtidPut(rtid, ServerKey(hdr));
      }
      data := Some(sent);
    }

    /** From now on ACKs match: the identifier loses its branch and gains the To tag. */
    method Rekey(toTag: Token)
      requires sipTm != null
      modifies this`tid, sipTm
      ensures tid == Spec.Rekeyed(old(tid), toTag)
      ensures sipTm.Abs() == Spec.TserverReplace(
          if rel.inflight.Some? then Spec.RtidReplace(old(sipTm.Abs()), rel.inflight.value.rtid, old(tid), tid)
          else old(sipTm.Abs()),
          old(tid), tid, id)
      ensures sipTm.tserver == (old(sipTm.tserver) - {old(tid)})[tid := this]
    {
      var oldTid := tid;
      tid := tid.(branch := EMPTY, toTag := toTag);
      if rel.inflight.Some? {
        sipTm.RtidReplace(rel.inflight.value.rtid, oldTid, tid);
      }
      sipTm.TserverReplace(oldTid, tid, this);
    }

    method CompleteInvite(r: Response, wantAck: bool, now: int)
      requires sipTm != null
      modifies this`state, this`timers, this`cbs, this`tid, this`tout, this`objA, this`objD, this`objE, sipTm
      ensures
        var st := Spec.CompleteInvite(old(sipTm.Abs()), id, old(Abs()), r, wantAck, now);
        sipTm.Abs() == st.t && Abs() == st.s
      ensures sipTm.tserver == (old(sipTm.tserver) - {old(tid)})[tid := this] && (old(TimeoutsFine()) ==> TimeoutsFine())
    {
      hide TimeoutsFine;
      state := Spec.Completed;
      CancelTeE();
      cbs := cbs.(ack := wantAck);
      StartTeD(now + Spec.TIMER_D);
      Rekey(r.toTag);
      tout := 500;
      StartTeA(now + tout);
    }

    /** What a handler may write. */
    ghost function Footprint(): set<object>
      reads this
    {
      {this} + if sipTm != null then {sipTm} else {}
    }

    /** The handler took `tm` and this object where `st` says, and put out what `st` adds; the manager
        has come to know no other object, and this one knows no other manager. */
    twostate predicate Did(tm: TransactionTables, st: Spec.Step)
      reads this, tm
    {
      tm.Abs() == st.t && Abs() == st.s && outs == old(outs) + st.outs &&
      (forall k :: k in tm.tserver ==> tm.tserver[k] == this || (k in old(tm.tserver) && old(tm.tserver)[k] == tm.tserver[k])) &&
      (sipTm == null || sipTm == old(sipTm)) && (old(TimeoutsFine()) ==> TimeoutsFine())
    }

    /** A transaction that was cleaned up ignores everything. */
    twostate predicate Ignored()
      reads this
    {
      Abs() == old(Abs()) && outs == old(outs) && (old(TimeoutsFine()) ==> TimeoutsFine())
    }

    method Transmit(r: Response, ghost cause: Spec.Cause)
      modifies this`outs
      ensures outs == old(outs) + [Spec.Transmit(r, cause)]
    {
      outs := outs + [Spec.Transmit(r, cause)];
    }

    /** A final response to anything else ends the transaction. */
    method CompleteOther(r: Response)
      requires sipTm != null
      modifies this`sipTm, this`state, this`timers, this`cbs, this`objA, this`objD, this`objE, this`outs, sipTm
      ensures old(sipTm).Abs() == Spec.TserverDel(old(sipTm.Abs()), tid) && old(sipTm).tserver == old(sipTm.tserver) - {tid}
      ensures Abs() == Spec.Cleanup(old(Abs()).(state := Spec.Completed)) && outs == old(outs) + [Spec.Transmit(r, Spec.FirstTime)]
      ensures sipTm == null && (old(TimeoutsFine()) ==> TimeoutsFine())
    {
      hide TimeoutsFine;
      state := Spec.Completed;
      CancelTeE();
      sipTm.TserverDel(tid);
      Transmit(r, Spec.FirstTime);
      Cleanup();
    }

    method SendResponse(resp: Response, wantAck: bool, genTag: Token, now: int)
      modifies Footprint()
      ensures old(sipTm) == null ==> Ignored()
      ensures old(sipTm) != null ==>
        Did(old(sipTm), Spec.SendResponse(old(sipTm.Abs()), id, old(Abs()), resp, wantAck, genTag, now))
    {
      if sipTm == null { return; }
      hide Spec.Prepare, Spec.CompleteInvite, Spec.TserverDel, TimeoutsFine;
      var r := resp;
      if r.code > 100 && r.toTag == EMPTY {
        r := r.(toTag := genTag);
      }
      r := Prepare(r, now);
      if r.code < 200 {
        state := Spec.Ringing;
        Transmit(r, Spec.FirstTime);
      } else if hdr.sipMethod == INVITE {
        CompleteInvite(r, wantAck, now);
        Transmit(r, Spec.FirstTime);
      } else {
        CompleteOther(r);
      }
    }

    method DoCancel(genTag: Token, now: int)
      requires sipTm != null
      modifies Footprint()
      ensures Did(old(sipTm), Spec.DoCancel(old(sipTm.Abs()), id, old(Abs()), genTag, now))
    {
      hide Spec.SendResponse, TimeoutsFine;
      if hdr.sipMethod == INVITE {
        SendResponse(Response(487, hdr.toTag, None, None), false, genTag, now);
      }
      if cbs.cancel {
        outs := outs + [Spec.CancelCb];
      }
    }

    method RecvAck()
      requires sipTm != null
      modifies Footprint()
      ensures Did(old(sipTm), Spec.RecvAck(old(sipTm.Abs()), old(Abs())))
    {
      hide Fine;
      if state == Spec.Completed {
        state := Spec.Confirmed;
        CancelTeA();
        if rel.inflight.None? {
          CancelTeD();
          sipTm.TserverDel(tid);
        }
        if cbs.ack {
          outs := outs + [Spec.AckCb];
        }
        if rel.inflight.None? {
          Cleanup();
        }
      }
    }

    method RecvPrack(req: Request)
      requires sipTm != null
      modifies Footprint()
      ensures Did(old(sipTm), Spec.RecvPrack(old(sipTm.Abs()), old(Abs()), req))
    {
      hide TimeoutsFine;
      if req.rack.None? { return; }
      var rskey := RTIdOfRAck(req.hdr, req.rack.value);
      if rel.inflight.Some? && rel.inflight.value.rtid == rskey {
        CancelPrackTimer();
        sipTm.RtidDel(rskey);
        if cbs.prack {
          outs := outs + [Spec.PrackCb];
        }
        outs := outs + [Spec.Reply(PRACK, 200)];
      } else {
        outs := outs + [Spec.Reply(PRACK, 481)];
      }
    }

    method IncomingRequest(req: Request, genTag: Token, now: int)
      modifies Footprint()
      ensures old(sipTm) == null ==> Ignored()
      ensures old(sipTm) != null ==>
        Did(old(sipTm), Spec.IncomingRequest(old(sipTm.Abs()), id, old(Abs()), req, genTag, now))
    {
      if sipTm == null { return; }
      hide Spec.DoCancel, Spec.RecvAck, Spec.RecvPrack, TimeoutsFine;
      if req.hdr.sipMethod == hdr.sipMethod {
        if data.Some? {
          Transmit(data.value, Spec.Duplicate);
        }
      } else if req.hdr.sipMethod == CANCEL {
        outs := outs + [Spec.Reply(CANCEL, 200)];
        if state == Spec.Trying || state == Spec.Ringing {
          DoCancel(genTag, now);
        }
      } else if req.hdr.sipMethod == ACK {
        RecvAck();
      } else if req.hdr.sipMethod == PRACK {
        RecvPrack(req);
      }
    }

    method TimerA(now: int)
      requires Valid() && timers.a.Some?
      modifies Footprint()
      ensures sipTm != null && sipTm == old(sipTm) && Did(sipTm, Spec.TimerA(old(sipTm.Abs()), old(Abs()), now))
    {
      hide TimeoutsFine;
      Transmit(data.value, Spec.ByTimerA);
      tout := 2 * tout;
      RestartTeA(now + tout);
    }

    method TimerD()
      requires Valid() && timers.d.Some?
      modifies Footprint()
      ensures old(sipTm) != null && Did(old(sipTm), Spec.TimerD(old(sipTm.Abs()), old(Abs())))
    {
      objD := Fired(objD);
      hide Fine;
      if cbs.noack && state != Spec.Confirmed {
        outs := outs + [Spec.NoAckCb];
      }
      sipTm.TserverDel(tid);
      Cleanup();
    }

    method TimerE(genTag: Token, now: int)
      requires Valid() && timers.e.Some?
      modifies Footprint()
      ensures old(sipTm) != null && Did(old(sipTm), Spec.TimerE(old(sipTm.Abs()), id, old(Abs()), genTag, now))
    {
      objE := Fired(objE);
      hide Fine, Spec.DoCancel;
      CancelTeE();
      if state == Spec.Trying || state == Spec.Ringing {
        DoCancel(genTag, now);
      }
    }

    /** `retrUasResponse`. */
    method TimerPrack(now: int)
      requires Valid() && rel.inflight.Some?
      modifies Footprint()
      ensures old(sipTm) != null ==> Did(old(sipTm), Spec.TimerPrack(old(sipTm.Abs()), old(Abs()), now))
      ensures old(sipTm) == null ==> outs == old(outs) && sipTm == null && (old(TimeoutsFine()) ==> TimeoutsFine())
      ensures old(sipTm) == null ==> forall t :: Abs() == Spec.TimerPrack(t, old(Abs()), now).s
    {
      hide TimeoutsFine;
      var last := rel.inflight.value.lastTimeout;
      if last > 16000 {
        if sipTm != null {
          sipTm.RtidDel(rel.inflight.value.rtid);
        }
        ReplacePrackTimer(None);
        if cbs.prack && state == Spec.Ringing {
          outs := outs + [Spec.NoPrackCb];
        }
        return;
      }
      if sipTm != null {
        Transmit(data.value, Spec.ByPrackTimer);
      }
      last := last * 2;
      ReplacePrackTimer(Some(rel.inflight.value.(lastTimeout := last, deadline := now + last)));
    }
  }
}
