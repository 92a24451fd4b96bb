/** Route sets: where the requests of a dialog go (sections 12.1.2, 12.2.1.1, 16.4 and 16.6 of RFC 3261),
    and where the ACK to a 2xx goes, which another function computes. */
module Routing {
  import opened Messages

  datatype Addr = Addr(host: Token, port: int)

  /** `user` stands for everything that does not say where the request goes. */
  datatype Url = Url(user: Token, host: Token, port: Option<int>, lr: bool)

  const DEFAULT_PORT: int := 5060

  function GetAddr(u: Url): Addr { Addr(u.host, if u.port.Some? then u.port.value else DEFAULT_PORT) }

  /** A URL without a port means port 5060 of its host. */
  lemma AddressOf(u: Url)
    ensures GetAddr(u).host == u.host && GetAddr(u).port == match u.port case Some(port) => port case None => 5060
  {
  }

  function ProxyUrl(p: Addr): Url { Url(EMPTY, p.host, Some(p.port), true) }

  function Reversed(s: seq<Url>): (r: seq<Url>)
    ensures |r| == |s|
  {
    if s == [] then [] else Reversed(s[1..]) + [s[0]]
  }

  lemma {:induction false} ReversedAt(s: seq<Url>, k: nat)
    requires k < |s|
    ensures Reversed(s)[k] == s[|s| - 1 - k]
  {
    if k < |s| - 1 { ReversedAt(s[1..], k); }
  }

  /** Request-URI, Route header and the URL of the hop that gets the request first. */
  datatype Routed = Routed(ruri: Url, routes: seq<Url>, first: Url)
  {
    function Dest(): Addr { GetAddr(first) }
  }

  /** The recorded routes, behind the outbound proxy if there is one. */
  function RouteSet(recorded: seq<Url>, reverse: bool, proxy: Option<Addr>): seq<Url> {
    (if proxy.Some? then [ProxyUrl(proxy.value)] else []) + (if reverse then Reversed(recorded) else recorded)
  }

  /** A strict router gets the request under its own URL, and the target becomes the last route. */
  function RouteVia(target: Url, routes: seq<Url>): Routed {
    if routes == [] then Routed(target, [], target)
    else if routes[0].lr then Routed(target, routes, routes[0])
    else Routed(routes[0], routes[1..] + [target], routes[0])
  }

  // ---------------------------------------------------------------- which hops a request visits

  /** A request with this Request-URI and these routes, at an element that still has to choose the next
      hop: a strict router there gets the request rewritten for it. */
  function Forward(ruri: Url, routes: seq<Url>): (hops: seq<Url>)
    decreases |routes|, 1
  {
    if routes == [] then [ruri]
    else if routes[0].lr then [routes[0]] + Forward(ruri, routes[1..])
    else [routes[0]] + FromStrict(routes[1..] + [ruri])
  }

  /** A strict router puts the first route into the Request-URI and sends the request there.  A loose
      router that finds itself in the Request-URI takes the last route as the target. */
  function FromStrict(routes: seq<Url>): (hops: seq<Url>)
    requires routes != []
    decreases |routes|, 0
  {
    var rest := routes[1..];
    if rest == [] then [routes[0]]
    else if routes[0].lr then [routes[0]] + Forward(rest[|rest| - 1], rest[..|rest| - 1])
    else [routes[0]] + FromStrict(rest)
  }

  /** The hops of a request the dialog sends. */
  function Hops(r: Routed): seq<Url> {
    if r.routes == [] then [r.first]
    else if r.first.lr then [r.first] + Forward(r.ruri, r.routes[1..])
    else [r.first] + FromStrict(r.routes)
  }

  lemma {:induction false} ForwardVisits(ruri: Url, routes: seq<Url>)
    ensures Forward(ruri, routes) == routes + [ruri]
    decreases |routes|, 1
  {
    if routes != [] {
      if routes[0].lr { ForwardVisits(ruri, routes[1..]); } else { StrictVisits(routes[1..] + [ruri]); }
      assert routes + [ruri] == [routes[0]] + (routes[1..] + [ruri]);
    }
  }

  lemma {:induction false} StrictVisits(routes: seq<Url>)
    requires routes != []
    ensures FromStrict(routes) == routes
    decreases |routes|, 0
  {
    var rest := routes[1..];
    if rest != [] {
      if routes[0].lr {
        ForwardVisits(rest[|rest| - 1], rest[..|rest| - 1]);
        assert rest[..|rest| - 1] + [rest[|rest| - 1]] == rest;
      } else {
        StrictVisits(rest);
      }
    }
    assert routes == [routes[0]] + rest;
  }

  /** Whatever mix of loose and strict routers: the outbound proxy, the recorded routers, the target. */
  lemma HopsVisited(target: Url, recorded: seq<Url>, reverse: bool, proxy: Option<Addr>)
    ensures Hops(RouteVia(target, RouteSet(recorded, reverse, proxy))) == RouteSet(recorded, reverse, proxy) + [target]
  {
    var routes := RouteSet(recorded, reverse, proxy);
    if routes != [] {
      if routes[0].lr { ForwardVisits(target, routes[1..]); } else { StrictVisits(routes[1..] + [target]); }
      assert routes + [target] == [routes[0]] + (routes[1..] + [target]);
    }
  }

  // ---------------------------------------------------------------- the hops one by one

  /** Where the recorded routers begin: behind the outbound proxy, if there is one. */
  function Behind(proxy: Option<Addr>): nat { if proxy.Some? then 1 else 0 }

  /** Element i of the Record-Route list is hop i counted from the last router, as a response is read, or
      from the first, as a request is; the proxy comes before all of them. */
  predicate Visits(hops: seq<Url>, recorded: seq<Url>, reverse: bool, proxy: Option<Addr>) {
    var p := Behind(proxy);
    |hops| >= p + |recorded| &&
    (proxy.Some? ==> hops[0].host == proxy.value.host && hops[0].port == Some(proxy.value.port) && hops[0].lr) &&
    (forall i :: 0 <= i < |recorded| ==> recorded[i] == hops[p + if reverse then |recorded| - 1 - i else i])
  }

  lemma RouteSetVisits(recorded: seq<Url>, reverse: bool, proxy: Option<Addr>)
    ensures Visits(RouteSet(recorded, reverse, proxy), recorded, reverse, proxy)
    ensures |RouteSet(recorded, reverse, proxy)| == Behind(proxy) + |recorded|
  {
    forall i | 0 <= i < |recorded| && reverse ensures recorded[i] == Reversed(recorded)[|recorded| - 1 - i] {
      ReversedAt(recorded, |recorded| - 1 - i);
    }
  }

  /** The hops of a request: the outbound proxy, each recorded router in its place, the target. */
  lemma HopsInOrder(target: Url, recorded: seq<Url>, reverse: bool, proxy: Option<Addr>)
    ensures var hops := Hops(RouteVia(target, RouteSet(recorded, reverse, proxy)));
            Visits(hops, recorded, reverse, proxy) && |hops| == Behind(proxy) + |recorded| + 1 && hops[|hops| - 1] == target
  {
    HopsVisited(target, recorded, reverse, proxy);
    RouteSetVisits(recorded, reverse, proxy);
    hide Hops, RouteVia, RouteSet;
  }

  /** What is put into a request for such a route: a strict first router takes the Request-URI, the
      target goes to the end of the Route header; the address is that of the first hop. */
  ghost predicate RoutedOver(w: Wire, target: Url, recorded: seq<Url>, reverse: bool, proxy: Option<Addr>) {
    exists hops: seq<Url> :: Visits(hops, recorded, reverse, proxy) && |hops| == Behind(proxy) + |recorded| + 1 &&
      hops[|hops| - 1] == target && w.dest == GetAddr(hops[0]) &&
      (if |hops| > 1 && !hops[0].lr then w.ruri == hops[0] && w.routes == hops[1..]
       else w.ruri == target && w.routes == hops[..|hops| - 1])
  }

  lemma WireOverRoute(target: Url, recorded: seq<Url>, reverse: bool, proxy: Option<Addr>)
    ensures RoutedOver(OnWire(RouteVia(target, RouteSet(recorded, reverse, proxy))), target, recorded, reverse, proxy)
  {
    var routes := RouteSet(recorded, reverse, proxy);
    var hops := routes + [target];
    RouteSetVisits(recorded, reverse, proxy);
    hide RouteSet;
    assert Visits(hops, recorded, reverse, proxy);
    hide Visits;
    assert hops[..|routes|] == routes && hops[|routes|] == target;
    if routes != [] { assert hops[1..] == routes[1..] + [target] && hops[0] == routes[0]; }
  }

  // ---------------------------------------------------------------- what the dialog sends

  /** A request on the wire: Request-URI, Route header and the address it is sent to. */
  datatype Wire = Wire(ruri: Url, routes: seq<Url>, dest: Addr)

  function OnWire(r: Routed): Wire { Wire(r.ruri, r.routes, r.Dest()) }

  /** What a response says about the route of the requests that follow it. */
  datatype Reply = Reply(contacts: seq<Url>, recorded: seq<Url>)

  function TargetAfter(rTarget: Url, r: Reply): Url { if r.contacts != [] then r.contacts[0] else rTarget }

  /** `UpdateRouting` for a response to an INVITE of ours; the Request-URI is kept as the target. */
  function Updated(rTarget: Url, r: Reply, proxy: Option<Addr>): Routed {
    RouteVia(TargetAfter(rTarget, r), RouteSet(r.recorded, true, proxy))
  }

  /** The target that the last of these responses finds, if the dialog began with `rTarget`. */
  function TargetBefore(rTarget: Url, rs: seq<Reply>, proxy: Option<Addr>): Url
    requires rs != []
    decreases |rs|, 0
  {
    if |rs| == 1 then rTarget else AfterReplies(rTarget, rs[..|rs| - 1], proxy).ruri
  }

  /** The next request after these responses to the INVITE, one after the other, each of which was
      handed to `UpdateRouting`. */
  function AfterReplies(rTarget: Url, rs: seq<Reply>, proxy: Option<Addr>): Routed
    requires rs != []
    decreases |rs|
  {
    Updated(TargetBefore(rTarget, rs, proxy), rs[|rs| - 1], proxy)
  }

  /** The last Contact seen, or what the dialog began with. */
  function LastContact(rTarget: Url, rs: seq<Reply>): Url
    decreases |rs|
  {
    if rs == [] then rTarget
    else if rs[|rs| - 1].contacts != [] then rs[|rs| - 1].contacts[0]
    else LastContact(rTarget, rs[..|rs| - 1])
  }

  /** Requests after this response go to a strict router first. */
  predicate StrictFirst(r: Reply, proxy: Option<Addr>) {
    var routes := RouteSet(r.recorded, true, proxy);
    routes != [] && !routes[0].lr
  }

  function FirstRouter(r: Reply, proxy: Option<Addr>): Url
    requires StrictFirst(r, proxy)
  {
    RouteSet(r.recorded, true, proxy)[0]
  }

  /** Response j is the last before the final one that put a strict router first, and none after it
      carried a Contact. */
  predicate RouterTaken(rs: seq<Reply>, proxy: Option<Addr>, j: int) {
    0 <= j < |rs| - 1 && StrictFirst(rs[j], proxy) && (forall i :: j < i < |rs| ==> rs[i].contacts == []) &&
    (forall i :: j < i < |rs| - 1 ==> !StrictFirst(rs[i], proxy))
  }

  /** The target in use is the last Contact, or the router that took its place. */
  lemma {:induction false} TargetInUse(rTarget: Url, rs: seq<Reply>, proxy: Option<Addr>)
    requires rs != []
    ensures var target := TargetAfter(TargetBefore(rTarget, rs, proxy), rs[|rs| - 1]);
            (forall j :: RouterTaken(rs, proxy, j) ==> target == FirstRouter(rs[j], proxy)) &&
            ((forall j :: !RouterTaken(rs, proxy, j)) ==> target == LastContact(rTarget, rs))
    decreases |rs|
  {
    var n := |rs| - 1;
    if n > 0 && rs[n].contacts == [] {
      var before := rs[..n];
      TargetInUse(rTarget, before, proxy);
      if StrictFirst(rs[n - 1], proxy) {
        assert RouterTaken(rs, proxy, n - 1);
      } else {
        forall j ensures RouterTaken(rs, proxy, j) <==> RouterTaken(before, proxy, j) {
          if RouterTaken(before, proxy, j) { assert rs[n - 1] == before[n - 1]; }
          if RouterTaken(rs, proxy, j) { assert j < n - 1; }
        }
      }
    }
    hide RouteSet;
  }

  /** In every run of responses: the next request visits the routers of the last response and then the
      last Contact, exactly if no response since that Contact left its strict router in the place of the
      target - or that router is the target. */
  lemma DialogVisits(rTarget: Url, rs: seq<Reply>, proxy: Option<Addr>)
    requires rs != []
    ensures Hops(AfterReplies(rTarget, rs, proxy)) == RouteSet(rs[|rs| - 1].recorded, true, proxy) + [LastContact(rTarget, rs)] <==>
            forall j :: RouterTaken(rs, proxy, j) ==> FirstRouter(rs[j], proxy) == LastContact(rTarget, rs)
  {
    var r := rs[|rs| - 1];
    var target, routes := TargetAfter(TargetBefore(rTarget, rs, proxy), r), RouteSet(r.recorded, true, proxy);
    TargetInUse(rTarget, rs, proxy);
    HopsVisited(target, r.recorded, true, proxy);
    assert (routes + [target])[|routes|] == target;
    assert (routes + [LastContact(rTarget, rs)])[|routes|] == LastContact(rTarget, rs);
    hide RouteSet, Hops, AfterReplies, LastContact, TargetBefore;
  }

  /** Behind an outbound proxy, and after any response with a Contact, it always does. */
  lemma DialogVisitsTarget(rTarget: Url, rs: seq<Reply>, proxy: Option<Addr>)
    requires rs != [] && (proxy.Some? || rs[|rs| - 1].contacts != [])
    ensures var hops := Hops(AfterReplies(rTarget, rs, proxy));
            hops == RouteSet(rs[|rs| - 1].recorded, true, proxy) + [LastContact(rTarget, rs)] &&
            Visits(hops, rs[|rs| - 1].recorded, true, proxy)
  {
    RouteSetVisits(rs[|rs| - 1].recorded, true, proxy);
    DialogVisits(rTarget, rs, proxy);
    if proxy.Some? { assert forall r: Reply :: !StrictFirst(r, proxy); }
    hide Hops, AfterReplies, LastContact, RouteSet;
  }

  /** A provisional response with a Contact and then a 2xx without one, both through one strict router:
      the next request visits the router twice and the Contact never. */
  lemma ContactForgotten(rTarget: Url, contact: Url, router: Url)
    requires !router.lr && contact != router
    ensures var rs := [Reply([contact], [router]), Reply([], [router])];
            Hops(AfterReplies(rTarget, rs, None)) == [router, router] && LastContact(rTarget, rs) == contact
  {
    var r1, r2 := Reply([contact], [router]), Reply([], [router]);
    assert [r1, r2][..1] == [r1];
    assert Reversed([router]) == [router];
    assert AfterReplies(rTarget, [r1], None) == Routed(router, [contact], router);
    HopsVisited(router, [router], true, None);
  }

  /** The PRACK for a reliable response that finds the agent in its first state leaves before the route
      set is computed, so it goes where the INVITE went.  For an INVITE without routes that is where the
      dialog goes from then on exactly if there is no recorded route, no new target, and the INVITE went
      straight to its target. */
  lemma FirstPrackAgreesExactly(rTarget: Url, address: Addr, r: Reply)
    ensures Wire(rTarget, [], address) == OnWire(AfterReplies(rTarget, [r], None)) <==>
            r.recorded == [] && LastContact(rTarget, [r]) == rTarget && address == GetAddr(rTarget)
  {
    assert [r][..0] == [];
    assert |AfterReplies(rTarget, [r], None).routes| == |r.recorded|;
  }

  // ---------------------------------------------------------------- what the transaction sends

  /** The INVITE transaction: where its INVITE went, and what the dialog told it about its ACK. */
  datatype Invited = Invited(invite: Url, address: Addr, proxy: Option<Addr>, params: Option<Wire>)

  /** The route of an ACK to a 2xx as far as it is known; the rest is as it was for the INVITE. */
  datatype AckRoute = AckRoute(target: Option<Url>, routes: seq<Url>, addr: Option<Addr>)

  function AckVia(contact: Option<Url>, routes: seq<Url>): AckRoute {
    if routes == [] then AckRoute(contact, [], if contact.Some? then Some(GetAddr(contact.value)) else None)
    else if routes[0].lr then AckRoute(contact, routes, Some(GetAddr(routes[0])))
    else
      var behind := if contact.Some? then routes + [contact.value] else routes;
      AckRoute(Some(routes[0]), behind[1..], Some(GetAddr(routes[0])))
  }

  /** The ACK to a 2xx. */
  function AckRequest(t: Invited, r: Reply): Wire {
    if t.params.Some? then t.params.value.(ruri := t.invite)
    else
      var a := AckVia(if r.contacts != [] then Some(r.contacts[0]) else None, RouteSet(r.recorded, true, t.proxy));
      Wire(if a.target.Some? then a.target.value else t.invite, a.routes, if a.addr.Some? then a.addr.value else t.address)
  }

  /** With a Contact in the 2xx the ACK and the next request of the dialog agree in all three, whatever
      responses came before, and both visit the recorded routers and then that Contact. */
  lemma AckAgreesWithContact(t: Invited, rTarget: Url, before: seq<Reply>, r: Reply)
    requires t.params.None? && r.contacts != []
    ensures var next := AfterReplies(rTarget, before + [r], t.proxy);
            AckRequest(t, r) == OnWire(next) && Hops(next) == RouteSet(r.recorded, true, t.proxy) + [r.contacts[0]] &&
            Visits(Hops(next), r.recorded, true, t.proxy)
  {
    var routes := RouteSet(r.recorded, true, t.proxy);
    DialogVisitsTarget(rTarget, before + [r], t.proxy);
    RouteSetVisits(r.recorded, true, t.proxy);
    if routes != [] { assert (routes + [r.contacts[0]])[1..] == routes[1..] + [r.contacts[0]]; }
    hide Hops, RouteSet, TargetBefore;
  }

  /** Without one they agree exactly if the target of the dialog is still the one the INVITE had, no
      strict router comes first, and where there are no routes the INVITE went straight to its target. */
  lemma AckAgreesExactly(t: Invited, rTarget: Url, before: seq<Reply>, r: Reply)
    requires t.params.None? && r.contacts == []
    ensures AckRequest(t, r) == OnWire(AfterReplies(rTarget, before + [r], t.proxy)) <==>
            TargetBefore(rTarget, before + [r], t.proxy) == t.invite && !StrictFirst(r, t.proxy) &&
            (RouteSet(r.recorded, true, t.proxy) == [] ==> t.address == GetAddr(t.invite))
  {
    var routes, target := RouteSet(r.recorded, true, t.proxy), TargetBefore(rTarget, before + [r], t.proxy);
    if StrictFirst(r, t.proxy) { assert |routes[1..]| < |routes[1..] + [target]|; }
    hide RouteSet, TargetBefore;
  }

  /** Behind a strict router an ACK to a 2xx without a Contact visits the routers and nobody else. */
  lemma AckLosesTarget(t: Invited, r: Reply)
    requires t.params.None? && r.contacts == [] && StrictFirst(r, t.proxy)
    ensures var routes := RouteSet(r.recorded, true, t.proxy);
            AckRequest(t, r) == OnWire(Routed(routes[0], routes[1..], routes[0])) &&
            Hops(Routed(routes[0], routes[1..], routes[0])) == routes
  {
    var routes := RouteSet(r.recorded, true, t.proxy);
    if routes[1..] != [] { StrictVisits(routes[1..]); }
  }

  // ---------------------------------------------------------------- the objects

  /** The recorded routes as the loop fills them in. */
  method RecordedRoutes(recorded: seq<Url>, reverse: bool) returns (routes: seq<Url>)
    ensures routes == if reverse then Reversed(recorded) else recorded
  {
    var n := |recorded|;
    var filled := new Url[n];
    for i := 0 to n
      invariant forall k :: 0 <= k < i ==> filled[if reverse then n - 1 - k else k] == recorded[k]
    {
      if reverse {
        filled[n - i - 1] := recorded[i];
      } else {
        filled[i] := recorded[i];
      }
    }
    forall k | 0 <= k < n ensures filled[k] == (if reverse then Reversed(recorded) else recorded)[k] {
      if reverse {
        ReversedAt(recorded, k);
        var m := n - 1 - k;
        assert filled[n - 1 - m] == recorded[m];
      }
    }
    routes := filled[..];
  }

  /** The agent's share of the dialog. */
  class Dialog {
    const outboundProxy: Option<Addr>
    var rTarget: Url
    var routes: seq<Url>
    var rAddr: Addr

    constructor (rTarget: Url, rAddr: Addr, outboundProxy: Option<Addr>)
      ensures this.rTarget == rTarget && this.rAddr == rAddr && routes == [] && this.outboundProxy == outboundProxy
    {
      this.rTarget, this.rAddr, this.outboundProxy, routes := rTarget, rAddr, outboundProxy, [];
    }

    /** The next request within the dialog. */
    function Next(): (w: Wire)
      reads this
    {
      Wire(rTarget, routes, if outboundProxy.Some? then outboundProxy.value else rAddr)
    }

    /** `UpdateRouting`. */
    method UpdateRouting(r: Reply, updateTarget: bool, reverse: bool)
      modifies this
      ensures var target := if updateTarget then TargetAfter(old(rTarget), r) else old(rTarget);
              Wire(rTarget, routes, rAddr) == OnWire(RouteVia(target, RouteSet(r.recorded, reverse, outboundProxy))) &&
              RoutedOver(Wire(rTarget, routes, rAddr), target, r.recorded, reverse, outboundProxy)
    {
      WireOverRoute(if updateTarget then TargetAfter(rTarget, r) else rTarget, r.recorded, reverse, outboundProxy);
      hide RoutedOver;
      if updateTarget && |r.contacts| > 0 {
        rTarget := r.contacts[0];
      }
      routes := RecordedRoutes(r.recorded, reverse);
      if outboundProxy.Some? {
        routes := [ProxyUrl(outboundProxy.value)] + routes;
      }
      if |routes| > 0 {
        var r0 := routes[0];
        if !r0.lr {
          routes := routes + [rTarget];
          rTarget := r0;
          routes := routes[1..];
          rAddr := GetAddr(rTarget);
        } else {
          rAddr := GetAddr(r0);
        }
      } else {
        rAddr := GetAddr(rTarget);
      }
    }

    /** `GenRequest`: a request goes to the outbound proxy if there is one. */
    method GenRequest() returns (w: Wire)
      ensures w == Next()
    {
      var target := rAddr;
      if outboundProxy.Some? {
        target := outboundProxy.value;
      }
      w := Wire(rTarget, routes, target);
    }

    /** The responses to the INVITE, one after the other, and the request that follows them. */
    method Follow(rs: seq<Reply>) returns (w: Wire)
      requires rs != []
      modifies this
      ensures rTarget == AfterReplies(old(rTarget), rs, outboundProxy).ruri
      ensures w == Next() == OnWire(AfterReplies(old(rTarget), rs, outboundProxy))
    {
      for i := 0 to |rs|
        invariant i == 0 ==> rTarget == old(rTarget)
        invariant i > 0 ==> Wire(rTarget, routes, rAddr) == OnWire(AfterReplies(old(rTarget), rs[..i], outboundProxy))
      {
        assert rs[..i + 1][..i] == rs[..i];
        UpdateRouting(rs[i], true, true);
      }
      assert rs[..|rs|] == rs;
      w := GenRequest();
    }

    /** `PrepTr` for a request of this dialog: a transaction begun within the established dialog is told
        how to route its ACK. */
    method PrepTr(req: Wire, connected: bool) returns (tr: AckSender)
      ensures fresh(tr) && tr.Abs() == Invited(req.ruri, req.dest, outboundProxy, if connected then Some(Next()) else None)
    {
      tr := new AckSender(req.ruri, req.dest, outboundProxy);
      if connected {
        if outboundProxy.None? {
          tr.SetAckRparams(Wire(rTarget, routes, rAddr));
        } else {
          tr.SetAckRparams(Wire(rTarget, routes, outboundProxy.value));
        }
      }
    }

    /** A 2xx to the first INVITE: the agent is handed it, then the transaction routes the ACK, and
        every request that follows goes where the ACK went. */
    method AcceptAnswer(tr: AckSender, r: Reply) returns (ack: Wire, later: Wire)
      requires tr.outboundProxy == outboundProxy
      modifies this
      ensures tr.ackParams.None? && r.contacts != [] ==> ack == later == Next()
    {
      later := Follow([r]);
      ack := tr.RouteAck(r);
      if tr.ackParams.None? && r.contacts != [] {
        AckAgreesWithContact(tr.Abs(), old(rTarget), [], r);
      }
    }

    /** A re-INVITE and the ACK to its 2xx, whatever that carries, agree with each other and with every
        other request of the dialog. */
    method Reinvite(r: Reply) returns (req: Wire, ack: Wire)
      ensures req == ack == Next()
    {
      req := GenRequest();
      var tr := PrepTr(req, true);
      ack := tr.RouteAck(r);
    }
  }

  /** The INVITE client transaction's share: what its ACK will need. */
  class AckSender {
    const invite: Url
    const address: Addr
    const outboundProxy: Option<Addr>
    var ackParams: Option<Wire>

    function Abs(): (t: Invited)
      reads this
    {
      Invited(invite, address, outboundProxy, ackParams)
    }

    constructor (invite: Url, address: Addr, outboundProxy: Option<Addr>)
      ensures Abs() == Invited(invite, address, outboundProxy, None)
    {
      this.invite, this.address, this.outboundProxy, ackParams := invite, address, outboundProxy, None;
    }

    /** `SetAckRparams`. */
    method SetAckRparams(w: Wire)
      modifies this
      ensures ackParams == Some(w)
    {
      ackParams := Some(w);
    }

    /** The part of `process_final_response` that routes the ACK to a 2xx. */
    method RouteAck(r: Reply) returns (ack: Wire)
      ensures ack == AckRequest(Abs(), r)
      ensures ackParams.Some? ==> ack == Wire(invite, ackParams.value.routes, ackParams.value.dest)
      ensures ackParams.None? && r.contacts != [] ==> RoutedOver(ack, r.contacts[0], r.recorded, true, outboundProxy)
    {
      if ackParams.None? && r.contacts != [] {
        AckAgreesWithContact(Abs(), invite, [], r);
        WireOverRoute(r.contacts[0], r.recorded, true, outboundProxy);
      }
      hide RoutedOver;
      if ackParams.Some? {
        return ackParams.value.(ruri := invite);
      }
      var rTarget: Option<Url> := None;
      if |r.contacts| > 0 {
        rTarget := Some(r.contacts[0]);
      }
      var rAddr: Option<Addr> := None;
      var routes := RecordedRoutes(r.recorded, true);
      if outboundProxy.Some? {
        routes := [ProxyUrl(outboundProxy.value)] + routes;
      }
      if |routes| > 0 {
        var r0 := routes[0];
        if !r0.lr {
          if rTarget.Some? {
            routes := routes + [rTarget.value];
          }
          rTarget := Some(r0);
          routes := routes[1..];
        }
        rAddr := Some(GetAddr(r0));
      } else if rTarget.Some? {
        rAddr := Some(GetAddr(rTarget.value));
      }
      var ruri := if rTarget.Some? then rTarget.value else invite;
      ack := Wire(ruri, routes, if rAddr.Some? then rAddr.value else address);
    }
  }
}
