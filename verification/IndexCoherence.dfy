/** The tables of the transaction manager and all its server transactions together: `tserver` and
    `rtid2tid` keep pointing at the transactions they were filled for, across the change of key
    that a final response to an INVITE makes. */
module IndexCoherence {
  import opened Messages
  import opened ServerSpec
  import opened ServerProperties

  datatype Tm = Tm(t: Tables, txns: map<Id, Srv>)

  predicate Live(tm: Tm, i: Id) { i in tm.txns && tm.txns[i].live }

  /** No key leads to a dead transaction or to one that has another identifier. */
  ghost predicate KeysLead(tm: Tm) {
    forall k :: k in tm.t.tserver ==> Live(tm, tm.t.tserver[k]) && tm.txns[tm.t.tserver[k]].tid == k
  }

  /** Every live transaction is registered under its current identifier. */
  ghost predicate Registered(tm: Tm) {
    forall i :: Live(tm, i) ==> tm.txns[i].tid in tm.t.tserver && tm.t.tserver[tm.txns[i].tid] == i
  }

  /** The RAck of an unacknowledged provisional response leads to the transaction that sent it. */
  ghost predicate RAcksLead(tm: Tm) {
    forall i :: Live(tm, i) && tm.txns[i].rel.inflight.Some? ==>
      tm.txns[i].rel.inflight.value.rtid in tm.t.rtid2tid &&
      tm.t.rtid2tid[tm.txns[i].rel.inflight.value.rtid] == tm.txns[i].tid
  }

  ghost predicate AllInv(tm: Tm) { forall i :: i in tm.txns ==> Inv(tm.txns[i]) }

  ghost predicate Coherent(tm: Tm) { AllInv(tm) && KeysLead(tm) && Registered(tm) && RAcksLead(tm) }

  datatype Action =
    | Create(i: Id, h: Hdr, expires: int, at: int)
    | Handle(i: Id, e: Event)

  function KeyOf(t: Tables, req: Request): Option<TID> {
    match req.hdr.sipMethod
    case ACK => Some(AckKey(req.hdr))
    case PRACK =>
      if req.rack.Some? && RTIdOfRAck(req.hdr, req.rack.value) in t.rtid2tid
      then Some(t.rtid2tid[RTIdOfRAck(req.hdr, req.rack.value)]) else None
    case _ => Some(ServerKey(req.hdr))
  }

  /** `incomingRequest` looks a request up before it hands it to a transaction or creates one. */
  function Lookup(t: Tables, req: Request): Option<Id> {
    var key := KeyOf(t, req);
    if key.Some? && key.value in t.tserver then Some(t.tserver[key.value]) else None
  }

  predicate CreatesTransaction(m: Method) { m != ACK && m != PRACK && m != CANCEL }

  predicate Possible(tm: Tm, a: Action) {
    match a
    case Create(i, h, _, _) => i !in tm.txns && CreatesTransaction(h.sipMethod) && ServerKey(h) !in tm.t.tserver
    case Handle(i, e) => i in tm.txns
  }

  ghost function Perform(tm: Tm, a: Action): Tm
    requires AllInv(tm) && Possible(tm, a)
  {
    match a
    case Create(i, h, expires, at) =>
      Tm(tm.t.(tserver := tm.t.tserver[ServerKey(h) := i]), tm.txns[i := New(h, expires, at)])
    case Handle(i, e) =>
      var st := Apply(tm.t, i, tm.txns[i], e);
      Tm(st.t, tm.txns[i := st.s])
  }

  /** No other live transaction waits for the PRACK that the next reliable response of `i` asks for. */
  ghost predicate RtidFree(tm: Tm, i: Id)
    requires i in tm.txns
  {
    forall j :: Live(tm, j) && j != i && tm.txns[j].rel.inflight.Some? ==>
      tm.txns[j].rel.inflight.value.rtid != NextRtid(tm.txns[i])
  }

  /** No live transaction already has the identifier that a final response with this To tag gives. */
  ghost predicate TagFree(tm: Tm, i: Id, toTag: Token)
    requires i in tm.txns
  {
    Rekeyed(tm.txns[i].tid, toTag) !in tm.t.tserver
  }

  /** What sending does to the tables and to the fields that the tables are about. */
  ghost predicate SendEffect(t: Tables, me: Id, s: Srv, r: Response, st: Step) {
    var k := NextRtid(s);
    var put := if SentReliably(s, r) then RtidPut(t, k, s.tid) else t;
    var newTid := Rekeyed(s.tid, r.toTag);
    && (st.s.rel.inflight.Some? ==>
          st.s.rel.inflight.value.rtid == if s.rel.inflight.Some? then s.rel.inflight.value.rtid else k)
    && (s.rel.inflight.Some? ==> st.s.rel.inflight.Some?)
    && (s.rel.inflight.None? ==> (st.s.rel.inflight.Some? <==> SentReliably(s, r)))
    && (!Final(r) ==> st.t == put && st.s.tid == s.tid && st.s.live)
    && (Final(r) && !s.Invite() ==> st.t == TserverDel(put, s.tid) && !st.s.live)
    && (Final(r) && s.Invite() ==>
          && st.s.tid == newTid && st.s.live
          && st.t == TserverReplace(
               if s.rel.inflight.Some? then RtidReplace(put, s.rel.inflight.value.rtid, s.tid, newTid) else put,
               s.tid, newTid, me))
  }

  lemma SendEffects(t: Tables, me: Id, s: Srv, r: Response, wantAck: bool, tag: Token, now: int)
    requires Core(s) && s.live && Unanswered(s)
    ensures SendEffect(t, me, s, Tagged(r, tag), SendResponse(t, me, s, r, wantAck, tag, now))
  {
    if Final(r) {
      assert !SentReliably(s, Tagged(r, tag));
      if s.Invite() { } else { }
    } else if SentReliably(s, Tagged(r, tag)) {
      if s.rel.inflight.Some? { } else { }
    } else {
    }
  }

  ghost predicate Installed(tm: Tm, i: Id, st: Step, tm2: Tm) {
    tm2 == Tm(st.t, tm.txns[i := st.s])
  }

  /** Sending a provisional response keeps the indexes coherent exactly when the identifier that it
      asks to be acknowledged by is free. */
  lemma ProvisionalKeepsCoherent(tm: Tm, i: Id, r: Response, tm2: Tm, st: Step)
    requires Coherent(tm) && Live(tm, i) && Unanswered(tm.txns[i]) && !Final(r)
    requires SendEffect(tm.t, i, tm.txns[i], r, st) && Installed(tm, i, st, tm2) && Inv(st.s)
    ensures Coherent(tm2) <==> (SentReliably(tm.txns[i], r) ==> RtidFree(tm, i))
  {
    hide Inv;
    var s := tm.txns[i];
    assert KeysLead(tm2) && Registered(tm2) && AllInv(tm2);
    if SentReliably(s, r) && !RtidFree(tm, i) {
      var j :| Live(tm, j) && j != i && tm.txns[j].rel.inflight.Some? && tm.txns[j].rel.inflight.value.rtid == NextRtid(s);
      assert Live(tm2, j) && tm2.txns[j] == tm.txns[j] && tm.txns[j].tid != s.tid;
    }
    if SentReliably(s, r) && s.rel.inflight.Some? {
      assert s.rel.inflight.value.rtid.rseq < s.rel.rseq by { OwnRseq(s); }
    }
  }

  lemma OwnRseq(s: Srv)
    requires Inv(s) && s.rel.inflight.Some?
    ensures OwnRtid(s, s.rel.inflight.value.rtid)
  {
  }

  /** Sending a final response to an INVITE changes the key of its transaction, and keeps the indexes
      coherent exactly when no live transaction has the new key. */
  lemma FinalKeepsCoherent(tm: Tm, i: Id, r: Response, tm2: Tm, st: Step)
    requires Coherent(tm) && Live(tm, i) && Unanswered(tm.txns[i]) && Final(r) && tm.txns[i].Invite()
    requires r.toTag != EMPTY
    requires SendEffect(tm.t, i, tm.txns[i], r, st) && Installed(tm, i, st, tm2) && Inv(st.s)
    ensures Coherent(tm2) <==> TagFree(tm, i, r.toTag)
  {
    hide Inv;
    var s := tm.txns[i];
    var new_ := Rekeyed(s.tid, r.toTag);
    assert AllInv(tm2);
    assert !SentReliably(s, r);
    assert new_ != s.tid by { UnansweredKey(s); }
    if new_ in tm.t.tserver {
      var j := tm.t.tserver[new_];
      assert j != i && Live(tm2, j) && tm2.txns[j].tid == new_ && tm2.t.tserver[new_] == i;
      assert !Registered(tm2);
    } else {
      assert KeysLead(tm2);
      assert Registered(tm2);
      assert RAcksLead(tm2);
    }
  }

  lemma UnansweredKey(s: Srv)
    requires Inv(s) && s.live && Unanswered(s)
    ensures s.tid == ServerKey(s.hdr) && s.tid.toTag == EMPTY
  {
  }

  /** Everything but sending: an entry goes exactly when the transaction gives up what it stands for. */
  ghost predicate ReleaseEffect(t: Tables, s: Srv, st: Step) {
    && st.s.tid == s.tid
    && (st.s.live ==> s.live)
    && st.t.tserver == (if s.live && !st.s.live then t.tserver - {s.tid} else t.tserver)
    && (st.s.rel.inflight.Some? ==> s.rel.inflight.Some? && st.s.rel.inflight.value.rtid == s.rel.inflight.value.rtid)
    && st.t.rtid2tid ==
         if s.live && s.rel.inflight.Some? && st.s.rel.inflight.None? then t.rtid2tid - {s.rel.inflight.value.rtid}
         else t.rtid2tid
  }

  lemma ReleaseKeepsCoherent(tm: Tm, i: Id, tm2: Tm, st: Step)
    requires Coherent(tm) && i in tm.txns && ReleaseEffect(tm.t, tm.txns[i], st)
    requires Installed(tm, i, st, tm2) && Inv(st.s)
    ensures Coherent(tm2)
  {
    hide Inv;
  }

  /** The steps in which a transaction sends a response that has not been sent before. */
  predicate Sends(t: Tables, s: Srv, e: Event) {
    && Enabled(t, s, e) && s.live && Unanswered(s)
    && (e.input.Send? || (s.Invite() && (e.input.FireE? || (e.input.Recv? && e.input.req.hdr.sipMethod == CANCEL))))
  }

  /** The response it then sends, as it leaves. */
  function Sent(s: Srv, e: Event): Response {
    match e.input
    case Send(r, _, tag) => Tagged(r, tag)
    case Recv(_, tag) => Tagged(R487(s), tag)
    case _ => Tagged(R487(s), TIMER_TAG)
  }

  lemma RecvReleases(t: Tables, me: Id, s: Srv, e: Event)
    requires Inv(s) && s.live && e.input.Recv? && Enabled(t, s, e) && !Sends(t, s, e)
    ensures ReleaseEffect(t, s, Apply(t, me, s, e))
  {
    hide DoCancel;
    var m := e.input.req.hdr.sipMethod;
    if m == s.hdr.sipMethod {
    } else if m == CANCEL {
      if Unanswered(s) { CancelOfNonInvite(t, me, s, e); }
    } else if m == ACK {
    } else if m == PRACK {
    } else {
    }
  }

  lemma CancelOfNonInvite(t: Tables, me: Id, s: Srv, e: Event)
    requires !s.Invite() && e.input.Recv?
    ensures var st := DoCancel(t, me, s, e.input.genTag, e.at); st.t == t && st.s == s
  {
  }

  lemma OtherReleases(t: Tables, me: Id, s: Srv, e: Event)
    requires Inv(s) && !Sends(t, s, e)
    ensures ReleaseEffect(t, s, Apply(t, me, s, e))
  {
    if Enabled(t, s, e) && s.live {
      hide SendResponse, DoCancel, IncomingRequest;
      match e.input
      case Recv(_, _) => RecvReleases(t, me, s, e);
      case FireD =>
      case FirePrack =>
      case _ =>
    }
  }

  lemma SendsEffect(t: Tables, me: Id, s: Srv, e: Event)
    requires Inv(s) && Sends(t, s, e)
    ensures SendEffect(t, me, s, Sent(s, e), Apply(t, me, s, e))
  {
    hide SendResponse;
    match e.input
    case Send(r, wantAck, tag) => SendEffects(t, me, s, r, wantAck, tag, e.at);
    case Recv(_, tag) => SendEffects(t, me, s, R487(s), false, tag, e.at);
    case _ => SendEffects(t, me, s.(timers := s.timers.(e := None)), R487(s), false, TIMER_TAG, e.at);
  }

  /** Distinct To tags per live INVITE, and distinct identifiers to be acknowledged by. */
  ghost predicate Guard(tm: Tm, a: Action)
    requires Possible(tm, a)
  {
    a.Handle? && Sends(tm.t, tm.txns[a.i], a.e) ==>
      var s, r := tm.txns[a.i], Sent(tm.txns[a.i], a.e);
      && (SentReliably(s, r) ==> RtidFree(tm, a.i))
      && (Final(r) && s.Invite() ==> TagFree(tm, a.i, r.toTag))
  }

  /** For every action of the transaction layer, the exact condition under which the indexes stay
      coherent. */
  lemma PerformKeepsCoherent(tm: Tm, a: Action)
    requires Coherent(tm) && Possible(tm, a)
    ensures Coherent(Perform(tm, a)) <==> Guard(tm, a)
  {
    var tm2 := Perform(tm, a);
    match a
    case Create(i, h, expires, at) =>
      NewInv(h, expires, at);
      CreateKeepsCoherent(tm, a);
    case Handle(i, e) =>
      hide Apply, Core, SendResponse, Coherent;
      var s := tm.txns[i];
      assert Inv(s) && Inv(tm2.txns[i]) by { AllInvAt(tm, i); ApplyKeepsInv(tm.t, i, s, e); }
      var st := Apply(tm.t, i, s, e);
      if !Sends(tm.t, s, e) {
        OtherReleases(tm.t, i, s, e);
        ReleaseKeepsCoherent(tm, i, tm2, st);
      } else {
        var r := Sent(s, e);
        SendsEffect(tm.t, i, s, e);
        if !Final(r) {
          ProvisionalKeepsCoherent(tm, i, r, tm2, st);
        } else if s.Invite() {
          FinalKeepsCoherent(tm, i, r, tm2, st);
        } else {
          FinalReleases(tm.t, i, s, r, st);
          ReleaseKeepsCoherent(tm, i, tm2, st);
        }
      }
  }

  lemma AllInvAt(tm: Tm, i: Id)
    requires Coherent(tm) && i in tm.txns
    ensures Inv(tm.txns[i])
  {
  }

  lemma FinalReleases(t: Tables, me: Id, s: Srv, r: Response, st: Step)
    requires s.live && Final(r) && !s.Invite() && SendEffect(t, me, s, r, st)
    ensures st.t == TserverDel(t, s.tid) && !st.s.live
  {
  }

  lemma CreateKeepsCoherent(tm: Tm, a: Action)
    requires Coherent(tm) && Possible(tm, a) && a.Create? && Inv(New(a.h, a.expires, a.at))
    ensures Coherent(Perform(tm, a))
  {
    hide Inv;
  }

  /** The actions of a run, each possible where it happens and each meeting its guard. */
  ghost predicate GuardedRun(tm: Tm, actions: seq<Action>)
    requires AllInv(tm)
    decreases |actions|
  {
    actions == [] ||
    (Possible(tm, actions[0]) && Guard(tm, actions[0]) &&
     AllInv(Perform(tm, actions[0])) && GuardedRun(Perform(tm, actions[0]), actions[1..]))
  }

  ghost function After(tm: Tm, actions: seq<Action>): Tm
    requires AllInv(tm) && GuardedRun(tm, actions)
    decreases |actions|
  {
    if actions == [] then tm else After(Perform(tm, actions[0]), actions[1..])
  }

  /** In every run that keeps To tags and RAck identifiers apart, any number of transactions, the
      three indexes agree at the end (and, as the run is arbitrary, all along). */
  lemma {:induction false} RunKeepsCoherent(tm: Tm, actions: seq<Action>)
    requires Coherent(tm) && GuardedRun(tm, actions)
    ensures Coherent(After(tm, actions))
    decreases |actions|
  {
    hide Inv, Perform;
    if actions != [] {
      PerformKeepsCoherent(tm, actions[0]);
      RunKeepsCoherent(Perform(tm, actions[0]), actions[1..]);
    }
  }

  lemma EmptyIsCoherent()
    ensures Coherent(Tm(Tables(map[], map[]), map[]))
  {
  }

  /** So an ACK to the final response finds the transaction, whatever branch it comes with, ... */
  lemma AckFindsTransaction(tm: Tm, i: Id, ack: Request)
    requires Coherent(tm) && Live(tm, i) && !Unanswered(tm.txns[i])
    requires ack.hdr.sipMethod == ACK && ack.hdr.toTag == tm.txns[i].data.value.toTag
    requires ack.hdr.callId == tm.txns[i].hdr.callId && ack.hdr.cseq == tm.txns[i].hdr.cseq
    requires ack.hdr.fromTag == tm.txns[i].hdr.fromTag
    ensures Lookup(tm.t, ack) == Some(i)
  {
    hide TimersArmed;
    assert AckKey(ack.hdr) == tm.txns[i].tid;
  }

  /** ... a CANCEL or a repetition of a request that has no final response yet finds it, ... */
  lemma RequestFindsTransaction(tm: Tm, i: Id, req: Request)
    requires Coherent(tm) && Live(tm, i) && Unanswered(tm.txns[i]) && req.hdr.sipMethod !in {ACK, PRACK}
    requires req.hdr.callId == tm.txns[i].hdr.callId && req.hdr.cseq == tm.txns[i].hdr.cseq
    requires req.hdr.fromTag == tm.txns[i].hdr.fromTag && |req.hdr.branches| > 0 && |tm.txns[i].hdr.branches| > 0
    requires req.hdr.branches[0] == tm.txns[i].hdr.branches[0]
    ensures Lookup(tm.t, req) == Some(i)
  {
    hide TimersArmed;
    assert Inv(tm.txns[i]);
    assert ServerKey(req.hdr) == tm.txns[i].tid;
  }

  /** ... a PRACK for the response in flight finds it before and after the final response, ... */
  lemma PrackFindsTransaction(tm: Tm, i: Id, prack: Request)
    requires Coherent(tm) && Live(tm, i) && tm.txns[i].rel.inflight.Some?
    requires prack.hdr.sipMethod == PRACK && prack.rack.Some?
    requires RTIdOfRAck(prack.hdr, prack.rack.value) == tm.txns[i].rel.inflight.value.rtid
    ensures Lookup(tm.t, prack) == Some(i)
  {
    hide Inv;
  }

  /** ... but an INVITE that is sent again after the final response does not. */
  lemma ResentInviteMissesTransaction(tm: Tm, i: Id, body: Option<Body>)
    requires Coherent(tm) && Live(tm, i) && !Unanswered(tm.txns[i])
    ensures Lookup(tm.t, Request(tm.txns[i].hdr, None, body)) != Some(i)
  {
    hide TimersArmed;
    assert Inv(tm.txns[i]);
    assert tm.txns[i].hdr.sipMethod == INVITE;
    assert ServerKey(tm.txns[i].hdr).toTag == EMPTY;
  }

  // ---------------------------------------------------------------- one INVITE on two paths

  /** An INVITE that reaches us on two paths (section 8.2.2.2 of RFC 3261) makes two transactions that
      differ in their branch only. */
  const BY_ONE_PATH: Hdr := Hdr(1, 1, INVITE, 2, EMPTY, [5])
  const BY_ANOTHER: Hdr := Hdr(1, 1, INVITE, 2, EMPTY, [6])

  const RACK: RTID := RTID(1, 2, 1, 1, INVITE)

  function Progress(tag: Token): Event { Event(Send(Response(183, EMPTY, None, None), false, tag), 0) }

  function Fresh(h: Hdr): Srv { New(h, 300000, 0) }

  function Willing(h: Hdr): Srv { Fresh(h).(rel := Reliable(true, 1, None)) }

  function InProgress(): Srv {
    Fresh(BY_ONE_PATH).(state := Ringing, data := Some(Response(183, 3, Some(1), None)),
                        rel := Reliable(true, 2, Some(Inflight(RACK, T1, T1))))
  }

  // The worlds on the way.
  const W0: Tm := Tm(Tables(map[], map[]), map[])
  const W1: Tm := Tm(Tables(map[ServerKey(BY_ONE_PATH) := 1], map[]), map[1 := Fresh(BY_ONE_PATH)])
  const W2: Tm := W1.(txns := map[1 := Willing(BY_ONE_PATH)])
  const W3: Tm := Tm(Tables(map[ServerKey(BY_ONE_PATH) := 1], map[RACK := ServerKey(BY_ONE_PATH)]), map[1 := InProgress()])
  const W4: Tm :=
    Tm(W3.t.(tserver := map[ServerKey(BY_ONE_PATH) := 1, ServerKey(BY_ANOTHER) := 2]), map[1 := InProgress(), 2 := Fresh(BY_ANOTHER)])
  const W5: Tm := W4.(txns := map[1 := InProgress(), 2 := Willing(BY_ANOTHER)])

  /** A guarded action leads from one world to another. */
  ghost predicate Leads(tm: Tm, a: Action, tm2: Tm) {
    AllInv(tm) && Possible(tm, a) && Guard(tm, a) && Perform(tm, a) == tm2
  }

  lemma FirstComes()
    ensures Leads(W0, Create(1, BY_ONE_PATH, 300000, 0), W1)
  {
  }

  lemma FirstIsWilling()
    ensures Leads(W1, Handle(1, Event(Setup100rel, 0)), W2)
  {
    assert Apply(W1.t, 1, W1.txns[1], Event(Setup100rel, 0)).s == Willing(BY_ONE_PATH);
  }

  lemma FirstProgresses()
    ensures Leads(W2, Handle(1, Progress(3)), W3)
  {
    var st := Apply(W2.t, 1, W2.txns[1], Progress(3));
    assert st.s == InProgress();
    assert RtidFree(W2, 1);
  }

  lemma SecondComes()
    ensures Leads(W3, Create(2, BY_ANOTHER, 300000, 0), W4)
  {
    assert ServerKey(BY_ONE_PATH) != ServerKey(BY_ANOTHER);
  }

  lemma SecondIsWilling()
    ensures Leads(W4, Handle(2, Event(Setup100rel, 0)), W5)
  {
    assert Apply(W4.t, 2, W4.txns[2], Event(Setup100rel, 0)).s == Willing(BY_ANOTHER);
  }

  /** A run of guarded actions between two worlds. */
  ghost predicate Reaches(tm: Tm, tm2: Tm) {
    AllInv(tm) && exists actions :: GuardedRun(tm, actions) && After(tm, actions) == tm2
  }

  lemma Onward(tm: Tm, a: Action, tm1: Tm, tm2: Tm)
    requires Leads(tm, a, tm1) && Reaches(tm1, tm2)
    ensures Reaches(tm, tm2)
  {
    hide Perform, Inv, Guard;
    var actions :| GuardedRun(tm1, actions) && After(tm1, actions) == tm2;
    assert ([a] + actions)[1..] == actions;
    assert GuardedRun(tm, [a] + actions) && After(tm, [a] + actions) == tm2;
  }

  lemma MergedReached()
    ensures Reaches(W0, W5) && Coherent(W5)
  {
    hide Leads, Reaches, Perform;
    assert Reaches(W5, W5) by { SecondIsWilling(); Stays(W5); }
    SecondIsWilling();
    Onward(W4, Handle(2, Event(Setup100rel, 0)), W5, W5);
    SecondComes();
    Onward(W3, Create(2, BY_ANOTHER, 300000, 0), W4, W5);
    FirstProgresses();
    Onward(W2, Handle(1, Progress(3)), W3, W5);
    FirstIsWilling();
    Onward(W1, Handle(1, Event(Setup100rel, 0)), W2, W5);
    FirstComes();
    Onward(W0, Create(1, BY_ONE_PATH, 300000, 0), W1, W5);
    EmptyIsCoherent();
    ReachedIsCoherent(W0, W5);
  }

  lemma Stays(tm: Tm)
    requires AllInv(tm)
    ensures Reaches(tm, tm)
  {
    assert GuardedRun(tm, []) && After(tm, []) == tm;
  }

  lemma ReachedIsCoherent(tm: Tm, tm2: Tm)
    requires Coherent(tm) && Reaches(tm, tm2)
    ensures Coherent(tm2)
  {
    hide Perform, Inv, Guard, KeysLead, Registered, RAcksLead;
    var actions :| GuardedRun(tm, actions) && After(tm, actions) == tm2;
    RunKeepsCoherent(tm, actions);
  }

  /** When the second transaction sends its first reliable response too, both ask for the same RAck, and
      the first can no longer be acknowledged: the guard of `PerformKeepsCoherent` does fail in a run. */
  lemma MergedInvitesShareRAck()
    ensures var a := Handle(2, Progress(4));
            Reaches(W0, W5) && Possible(W5, a) && !Coherent(Perform(W5, a)) &&
            W5.txns[1].hdr == BY_ONE_PATH && W5.txns[2].hdr == BY_ANOTHER
  {
    var a := Handle(2, Progress(4));
    MergedReached();
    assert Live(W5, 1) && W5.txns[1].rel.inflight.value.rtid == NextRtid(W5.txns[2]);
    assert Sends(W5.t, W5.txns[2], a.e) && !RtidFree(W5, 2);
    PerformKeepsCoherent(W5, a);
    hide Reaches;
  }
}
