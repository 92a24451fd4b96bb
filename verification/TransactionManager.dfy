/** The transaction manager as a mutable object: how it routes requests and responses, and that its
    tables and all transactions it ever created stay coherent meanwhile. */
module TransactionManagers {
  import opened Messages
  import opened ServerTransactions
  import Spec = ServerSpec
  import Runs = ServerProperties
  import Index = IndexCoherence

  datatype Routed = LoopDetected482 | Handed(t: ServerTransaction) | Dropped | Refused481 | Created(t: ServerTransaction)

  class SipTransactionManager {
    const tables: TransactionTables
    var tclient: set<TID>
    var nextId: Spec.Id
    /** Every transaction that was ever created, the finished ones too. */
    ghost var txns: map<Spec.Id, ServerTransaction>

    ghost function Abs(): Index.Tm
      reads this, tables, txns.Values
    {
      Index.Tm(tables.Abs(), map i | i in txns :: txns[i].Abs())
    }

    /** Identities are not reused, and the tables and the transactions know each other and nobody else. */
    ghost predicate Connected()
      reads this, tables, tables.tserver.Values, txns.Values
    {
      (forall k <- tables.tserver :: RightlyNamed(k)) && (forall i <- txns :: Own(i))
    }

    ghost predicate RightlyNamed(k: TID)
      requires k in tables.tserver
      reads this, tables, tables.tserver[k]
    {
      var t := tables.tserver[k];
      t.id in txns && txns[t.id] == t
    }

    ghost predicate Own(i: Spec.Id)
      requires i in txns
      reads this, txns[i]
    {
      txns[i].id == i < nextId && (txns[i].sipTm == null || txns[i].sipTm == tables)
    }

    ghost predicate Valid()
      reads this, tables, tables.tserver.Values, txns.Values
    {
      Connected() && Index.Coherent(Abs())
    }

    constructor ()
      ensures Valid() && fresh(tables) && Abs() == Index.Tm(Spec.Tables(map[], map[]), map[]) && tclient == {}
    {
      tables := new TransactionTables();
      tclient, nextId, txns := {}, 0, map[];
    }

    method FindKey(req: Request) returns (key: Option<TID>)
      ensures key == Index.KeyOf(tables.Abs(), req)
      ensures Index.Lookup(tables.Abs(), req) ==
        if key.Some? && key.value in tables.tserver then Some(tables.tserver[key.value].id) else None
    {
      match req.hdr.sipMethod
      case ACK => key := Some(GetTId(req.hdr, false, false, true));
      case PRACK =>
        key := None;
        if req.rack.Some? {
          var rtid := RTIdOfRAck(req.hdr, req.rack.value);
          if rtid in tables.rtid2tid { key := Some(tables.rtid2tid[rtid]); }
        }
      case _ => key := Some(GetTId(req.hdr, false, true, false));
    }

    /** The objects did what the action says, and stay coherent exactly under its guard. */
    twostate predicate Performed(a: Index.Action)
      reads this, tables, tables.tserver.Values, txns.Values
    {
      old(Valid()) && Index.Possible(old(Abs()), a) && Connected() && Abs() == Index.Perform(old(Abs()), a) &&
      (Valid() <==> Index.Guard(old(Abs()), a))
    }

    /** No other transaction took part. */
    twostate predicate OthersKept(t: ServerTransaction)
      reads this, txns.Values
    {
      txns == old(txns) && nextId == old(nextId) &&
      forall o :: o in txns.Values && o != t ==> unchanged(o)
    }

    /** A transaction that the tables know handles a request. */
    method HandOver(key: TID, req: Request, genTag: Token, now: int) returns (t: ServerTransaction)
      requires Valid() && key in tables.tserver && genTag != EMPTY && Index.KeyOf(tables.Abs(), req) == Some(key)
      modifies tables, tables.tserver[key]
      ensures t == old(tables.tserver[key]) && t in old(txns.Values) && t == old(txns[t.id])
      ensures OthersKept(t) && Performed(Index.Handle(t.id, Received(req, genTag, now)))
      ensures t.Did(tables, Spec.IncomingRequest(old(tables.Abs()), t.id, old(t.Abs()), req, genTag, now))
    {
      ghost var before, e := Abs(), Received(req, genTag, now);
      Registered(key);
      assert Runs.Enabled(before.t, tables.tserver[key].Abs(), e);
      t := Delegate(key, req, genTag, now);
      hide Connected, Abs, Index.Coherent, Spec.IncomingRequest, OthersKept;
      Index.PerformKeepsCoherent(before, Index.Handle(t.id, e));
    }

    /** The same, as far as the objects go; coherence is a matter of their values. */
    method Delegate(key: TID, req: Request, genTag: Token, now: int) returns (t: ServerTransaction)
      requires Connected() && key in tables.tserver && tables.tserver[key].sipTm == tables
      modifies tables, tables.tserver[key]
      ensures t == old(tables.tserver[key]) && t in old(txns.Values) && t == old(txns[t.id])
      ensures OthersKept(t) && Connected() && t.Did(tables, Spec.IncomingRequest(old(tables.Abs()), t.id, old(t.Abs()), req, genTag, now))
      ensures Abs() == Index.Tm(tables.Abs(), old(Abs()).txns[t.id := t.Abs()])
    {
      hide Spec.IncomingRequest;
      t := tables.tserver[key];
      assert RightlyNamed(key);
      t.IncomingRequest(req, genTag, now);
    }

    /** What coherence says of the object under a key. */
    lemma Registered(key: TID)
      requires Valid() && key in tables.tserver
      ensures var t := tables.tserver[key];
              t in txns.Values && t.id in txns && txns[t.id] == t && t.sipTm == tables && t.tid == key && Runs.Inv(t.Abs())
    {
      var t := tables.tserver[key];
      assert Abs().t.tserver[key] == t.id;
      assert Index.Live(Abs(), t.id);
    }

    /** `new_server_transaction`. */
    method NewServerTransaction(key: TID, req: Request, expires: int, now: int) returns (t: ServerTransaction)
      requires Valid() && key == ServerKey(req.hdr) && key !in tables.tserver && Index.CreatesTransaction(req.hdr.sipMethod)
      modifies this`nextId, this`txns, tables
      ensures Performed(Index.Create(old(nextId), req.hdr, expires, now)) && Valid()
      ensures fresh(t) && t.id == old(nextId) && txns == old(txns)[old(nextId) := t]
    {
      ghost var before, a := Abs(), Index.Create(nextId, req.hdr, expires, now);
      assert Index.Possible(before, a);
      t := Create(req, expires, now);
      Register(key, t);
      hide Connected, Abs, Index.Coherent;
      Index.PerformKeepsCoherent(before, a);
    }

    /** One more transaction, not registered yet. */
    method Create(req: Request, expires: int, now: int) returns (t: ServerTransaction)
      requires Connected()
      modifies this`nextId, this`txns
      ensures fresh(t) && t.id == old(nextId) && txns == old(txns)[old(nextId) := t] && Connected()
      ensures Abs() == Index.Tm(old(tables.Abs()), old(Abs()).txns[t.id := Spec.New(req.hdr, expires, now)])
    {
      hide ServerTransactions.ServerTransaction.TimeoutsFine;
      t := new ServerTransaction(nextId, req.hdr, tables, expires, now);
      txns := txns[nextId := t];
      nextId := nextId + 1;
    }

    method Register(key: TID, t: ServerTransaction)
      requires Connected() && t.id in txns && txns[t.id] == t
      modifies tables
      ensures Connected() && Abs() == Index.Tm(old(tables.Abs()).(tserver := old(tables.Abs()).tserver[key := t.id]), old(Abs()).txns)
    {
      tables.tserver := tables.tserver[key := t];
    }

    function Received(req: Request, genTag: Token, now: int): Runs.Event { Runs.Event(Runs.Recv(req, genTag), now) }

    /** Nothing happened to the tables or to any transaction. */
    twostate predicate Untouched()
      reads this, tables, tables.tserver.Values, txns.Values
    {
      Valid() && unchanged(this) && unchanged(tables) && unchanged(txns.Values)
    }

    /** `incomingRequest`: a request goes to the transaction its key leads to; without one an ACK or
        a PRACK for an unknown response is dropped, a CANCEL or a PRACK for a finished transaction is
        refused, and anything else creates and registers a transaction under the key of the request. */
    method IncomingRequest(req: Request, expires: int, genTag: Token, now: int) returns (v: Routed)
      requires Valid() && genTag != EMPTY
      modifies this`nextId, this`txns, tables, tables.tserver.Values
      ensures v.LoopDetected482? <==> LoopDetected(req.hdr, tclient)
      ensures !v.LoopDetected482? ==> RoutedTo(old(tables.Abs()), old(txns), old(nextId), req, v)
      ensures v.Handed? ==> OthersKept(v.t) && Performed(Index.Handle(v.t.id, Received(req, genTag, now))) &&
                            v.t.Did(tables, Spec.IncomingRequest(old(tables.Abs()), v.t.id, old(v.t.Abs()), req, genTag, now))
      ensures v.Created? ==> Performed(Index.Create(old(nextId), req.hdr, expires, now)) && Valid() &&
                             fresh(v.t) && txns == old(txns)[old(nextId) := v.t]
      ensures !v.Handed? && !v.Created? ==> Untouched()
    {
      hide Index.Perform, Index.Guard, Index.Possible, Spec.IncomingRequest, Runs.Apply, LoopDetected, Valid;
      if LoopDetected(req.hdr, tclient) {
        return LoopDetected482;
      }
      var key := FindKey(req);
      if key.None? {
        return Dropped;
      }
      if key.value in tables.tserver {
        var t := HandOver(key.value, req, genTag, now);
        return Handed(t);
      }
      match req.hdr.sipMethod
      case ACK => return Dropped;
      case PRACK => return Refused481;
      case CANCEL => return Refused481;
      case _ =>
        var t := NewServerTransaction(key.value, req, expires, now);
        return Created(t);
    }

    /** Which way a request goes that is not a loop. */
    predicate RoutedTo(t: Spec.Tables, txns: map<Spec.Id, ServerTransaction>, nextId: Spec.Id, req: Request, v: Routed) {
      match Index.Lookup(t, req)
      case Some(i) => i in txns && v == Handed(txns[i])
      case None =>
        if req.hdr.sipMethod !in {ACK, PRACK, CANCEL} then v.Created? && v.t.id == nextId
        else v == if req.hdr.sipMethod == CANCEL || KnownRAck(t.rtid2tid, req) then Refused481 else Dropped
    }

    // ---------------------------------------------------------------- responses and timers

    /** `SendResponse`: the key of a response leads to a transaction that has not answered yet, or nowhere. */
    method SendResponse(h: Hdr, r: Response, wantAck: bool, genTag: Token, now: int) returns (t: ServerTransaction?)
      requires Valid() && genTag != EMPTY
      modifies tables, tables.tserver.Values
      ensures t == if ServerKey(h) in old(tables.tserver) then old(tables.tserver)[ServerKey(h)] else null
      ensures t == null ==> Untouched()
      ensures t != null ==> Spec.Unanswered(old(t.Abs())) && OthersKept(t) &&
                            Performed(Index.Handle(t.id, Runs.Event(Runs.Send(r, wantAck, genTag), now))) &&
                            t.Did(tables, Spec.SendResponse(old(tables.Abs()), t.id, old(t.Abs()), r, wantAck, genTag, now))
    {
      hide Spec.SendResponse;
      var key := GetTId(h, false, true, false);
      if key !in tables.tserver {
        return null;
      }
      ghost var before, e := Abs(), Runs.Event(Runs.Send(r, wantAck, genTag), now);
      Registered(key);
      StillUnanswered(tables.tserver[key].Abs());
      t := DelegateResponse(key, r, wantAck, genTag, now);
      hide Connected, Abs, Index.Coherent, OthersKept;
      Index.PerformKeepsCoherent(before, Index.Handle(t.id, e));
    }

    /** The same, as far as the objects go. */
    method DelegateResponse(key: TID, r: Response, wantAck: bool, genTag: Token, now: int) returns (t: ServerTransaction)
      requires Connected() && key in tables.tserver && tables.tserver[key].sipTm == tables
      modifies tables, tables.tserver[key]
      ensures t == old(tables.tserver[key]) && t in old(txns.Values) && t == old(txns[t.id])
      ensures OthersKept(t) && Connected() && t.Did(tables, Spec.SendResponse(old(tables.Abs()), t.id, old(t.Abs()), r, wantAck, genTag, now))
      ensures Abs() == Index.Tm(tables.Abs(), old(Abs()).txns[t.id := t.Abs()])
    {
      hide Spec.SendResponse;
      t := tables.tserver[key];
      assert RightlyNamed(key);
      t.SendResponse(r, wantAck, genTag, now);
    }

    /** A timer of a transaction fires; the PRACK timer may outlive the registration. */
    method TimerFires(t: ServerTransaction, timer: Runs.Input, now: int)
      requires Valid() && t.id in txns && txns[t.id] == t && IsTimer(timer)
      requires Runs.Enabled(tables.Abs(), t.Abs(), Runs.Event(timer, now))
      modifies tables, t
      ensures OthersKept(t) && Performed(Index.Handle(t.id, Runs.Event(timer, now)))
    {
      ghost var before, e := Abs(), Runs.Event(timer, now);
      assert before.txns[t.id] == t.Abs();
      DelegateTimer(t, timer, now);
      hide Connected, Abs, Index.Coherent, OthersKept, Runs.Apply;
      Index.PerformKeepsCoherent(before, Index.Handle(t.id, e));
    }

    predicate IsTimer(i: Runs.Input) { i.FireA? || i.FireD? || i.FireE? || i.FirePrack? }

    /** The same, as far as the objects go. */
    method DelegateTimer(t: ServerTransaction, timer: Runs.Input, now: int)
      requires Connected() && t.id in txns && txns[t.id] == t && IsTimer(timer) && t.Valid()
      requires Runs.Enabled(tables.Abs(), t.Abs(), Runs.Event(timer, now))
      modifies tables, t
      ensures OthersKept(t) && Connected()
      ensures var st := Runs.Apply(old(tables.Abs()), t.id, old(t.Abs()), Runs.Event(timer, now)); tables.Abs() == st.t && t.Abs() == st.s
      ensures Abs() == Index.Tm(tables.Abs(), old(Abs()).txns[t.id := t.Abs()])
    {
      assert Own(t.id);
      FireTimer(t, timer, now);
    }

    method FireTimer(t: ServerTransaction, timer: Runs.Input, now: int)
      requires IsTimer(timer) && t.Valid() && (t.sipTm == null || t.sipTm == tables)
      requires Runs.Enabled(tables.Abs(), t.Abs(), Runs.Event(timer, now))
      modifies tables, t
      ensures var st := Runs.Apply(old(tables.Abs()), t.id, old(t.Abs()), Runs.Event(timer, now)); tables.Abs() == st.t && t.Abs() == st.s
      ensures t.sipTm == null || t.sipTm == old(t.sipTm)
      ensures forall k <- tables.tserver ::
                tables.tserver[k] == t || (k in old(tables.tserver) && old(tables.tserver)[k] == tables.tserver[k])
    {
      hide Spec.TimerA, Spec.TimerD, Spec.TimerE;
      match timer
      case FireA => t.TimerA(now);
      case FireD => t.TimerD();
      case FireE => t.TimerE(Runs.TIMER_TAG, now);
      case FirePrack => t.TimerPrack(now);
    }

    lemma StillUnanswered(s: Spec.Srv)
      requires Runs.Inv(s) && s.live && s.tid.toTag == EMPTY
      ensures Spec.Unanswered(s)
    {
    }

    /** The RAck of a PRACK names a response that some transaction sent. */
    predicate KnownRAck(rtid2tid: map<RTID, TID>, req: Request) {
      req.hdr.sipMethod == PRACK && req.rack.Some? && RTIdOfRAck(req.hdr, req.rack.value) in rtid2tid
    }
  }
}
