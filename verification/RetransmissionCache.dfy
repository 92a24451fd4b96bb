/** The two-generation caches: retransmitted datagrams (`l1rcache`, `l2rcache`) and local addresses
    (`cache_r2l`, `cache_r2l_old`).  A datagram stands for its checksum. */
module RetransmissionCache {
  import opened Messages

  /** The reply to repeat, if one was sent, and the Call-ID for the log. */
  datatype Entry = Entry(reply: Option<Token>, callId: Token)

  datatype Cache = Cache(l1: map<Token, Entry>, l2: map<Token, Entry>)

  datatype Op =
    | Put(key: Token, entry: Entry)
    | SetCallId(key: Token, callId: Token)
    | Receive(key: Token, length: nat)
    | Purge

  const EMPTY_CACHE: Cache := Cache(map[], map[])

  const FRESH_ENTRY: Entry := Entry(None, EMPTY)

  const MIN_DATAGRAM: nat := 32

  function Get(c: Cache, k: Token): Option<Entry> {
    if k in c.l1 then Some(c.l1[k]) else if k in c.l2 then Some(c.l2[k]) else None
  }

  function PutIn(c: Cache, k: Token, e: Entry): Cache { c.(l1 := c.l1[k := e]) }

  function SetCallIdIn(c: Cache, k: Token, callId: Token): Cache {
    if k in c.l1 then c.(l1 := c.l1[k := c.l1[k].(callId := callId)])
    else if k in c.l2 then c.(l2 := c.l2[k := c.l2[k].(callId := callId)])
    else PutIn(c, k, Entry(None, callId))
  }

  predicate Dispatches(c: Cache, k: Token, length: nat) { length >= MIN_DATAGRAM && Get(c, k).None? }

  function Do(c: Cache, op: Op): Cache {
    match op
    case Put(k, e) => PutIn(c, k, e)
    case SetCallId(k, callId) => SetCallIdIn(c, k, callId)
    case Receive(k, length) => if Dispatches(c, k, length) then PutIn(c, k, FRESH_ENTRY) else c
    case Purge => Cache(map[], c.l1)
  }

  function Run(ops: seq<Op>): Cache {
    if ops == [] then EMPTY_CACHE else Do(Run(ops[..|ops| - 1]), ops[|ops| - 1])
  }

  /** The simple cache: every key remembers how many purges happened since it was last put, and is
      held as long as those are fewer than two. */
  datatype Held = Never | Held(age: nat, entry: Entry)

  predicate Present(h: Held) { h.Held? && h.age < 2 }

  function Remembered(ops: seq<Op>, k: Token): Held {
    if ops == [] then Never
    else
      var h := Remembered(ops[..|ops| - 1], k);
      match ops[|ops| - 1]
      case Put(k', e) => if k' == k then Held(0, e) else h
      case SetCallId(k', callId) =>
        if k' != k then h
        else if Present(h) then h.(entry := h.entry.(callId := callId))
        else Held(0, Entry(None, callId))
      case Receive(k', length) =>
        if k' == k && length >= MIN_DATAGRAM && !Present(h) then Held(0, FRESH_ENTRY) else h
      case Purge => if h.Held? then h.(age := h.age + 1) else Never
  }

  predicate Agrees(c: Cache, k: Token, h: Held) {
    && (k in c.l1 <==> h.Held? && h.age == 0)
    && (k in c.l1 ==> c.l1[k] == h.entry)
    && (k !in c.l1 ==> (k in c.l2 <==> h.Held? && h.age == 1) && (k in c.l2 ==> c.l2[k] == h.entry))
  }

  lemma {:induction false} RunAgrees(ops: seq<Op>, k: Token)
    ensures Agrees(Run(ops), k, Remembered(ops, k))
  {
    if ops != [] { RunAgrees(ops[..|ops| - 1], k); }
  }

  /** After any history a key is found exactly when fewer than two purges happened since its last
      put, with what was put. */
  lemma FoundExactly(ops: seq<Op>, k: Token)
    ensures
      var h := Remembered(ops, k);
      Get(Run(ops), k) == if Present(h) then Some(h.entry) else None
  {
    RunAgrees(ops, k);
  }

  /** A datagram is processed exactly if it has 32 bytes or more and is not remembered; from then on it is,
      without a reply. */
  lemma ProcessedExactly(ops: seq<Op>, k: Token, length: nat)
    ensures Dispatches(Run(ops), k, length) <==> length >= 32 && !Present(Remembered(ops, k))
    ensures Dispatches(Run(ops), k, length) ==> Get(Run(ops + [Receive(k, length)]), k) == Some(Entry(None, EMPTY))
  {
    FoundExactly(ops, k);
    var later := ops + [Receive(k, length)];
    assert later[..|later| - 1] == ops;
  }

  function Purges(ops: seq<Op>): nat {
    if ops == [] then 0 else Purges(ops[..|ops| - 1]) + if ops[|ops| - 1] == Purge then 1 else 0
  }

  /** A key put before `later` began has aged by at most the purges in it. */
  lemma {:induction false} Ages(ops: seq<Op>, later: seq<Op>, k: Token)
    requires Remembered(ops, k).Held?
    ensures
      var h := Remembered(ops + later, k);
      h.Held? && h.age <= Remembered(ops, k).age + Purges(later)
    decreases |later|
  {
    if later == [] {
      assert ops + later == ops;
    } else {
      var shorter := later[..|later| - 1];
      assert (ops + later)[..|ops + later| - 1] == ops + shorter;
      Ages(ops, shorter, k);
    }
  }

  /** So between two moments at which the same datagram reaches request or response processing lie at
      least two purges, whatever else happens in between. */
  lemma NotDispatchedTwice(ops: seq<Op>, between: seq<Op>, k: Token, length: nat)
    requires Dispatches(Run(ops), k, length)
    requires Dispatches(Run(ops + [Receive(k, length)] + between), k, length)
    ensures Purges(between) >= 2
  {
    var first := ops + [Receive(k, length)];
    assert first[..|first| - 1] == ops;
    FoundExactly(ops, k);
    assert Remembered(first, k) == Held(0, FRESH_ENTRY);
    Ages(first, between, k);
    FoundExactly(first + between, k);
  }

  /** What `handleIncoming` does with a datagram. */
  datatype Verdict = TooShort | Absorb | Repeat(reply: Token) | Process

  class RetransmissionTable {
    var l1rcache: map<Token, Entry>
    var l2rcache: map<Token, Entry>
    ghost var history: seq<Op>

    ghost predicate Valid()
      reads this
    {
      Run(history) == Cache(l1rcache, l2rcache)
    }

    constructor ()
      ensures Valid() && history == []
    {
      l1rcache, l2rcache, history := map[], map[], [];
    }

    ghost method Record(op: Op)
      modifies this`history
      ensures history == old(history) + [op] && Run(history) == Do(Run(old(history)), op)
    {
      history := history + [op];
      assert history[..|history| - 1] == old(history);
    }

    method RcachePut(checksum: Token, entry: Entry)
      requires Valid()
      modifies this
      ensures Valid() && history == old(history) + [Put(checksum, entry)]
    {
      l1rcache := l1rcache[checksum := entry];
      Record(Put(checksum, entry));
    }

    method RcacheGet(checksum: Token) returns (entry: Option<Entry>)
      requires Valid()
      ensures
        var h := Remembered(history, checksum);
        entry == if Present(h) then Some(h.entry) else None
    {
      FoundExactly(history, checksum);
      if checksum in l1rcache { return Some(l1rcache[checksum]); }
      if checksum in l2rcache { return Some(l2rcache[checksum]); }
      return None;
    }

    method RcacheSetCallId(checksum: Token, callId: Token)
      requires Valid()
      modifies this
      ensures Valid() && history == old(history) + [SetCallId(checksum, callId)]
    {
      if checksum in l1rcache {
        l1rcache := l1rcache[checksum := l1rcache[checksum].(callId := callId)];
      } else if checksum in l2rcache {
        l2rcache := l2rcache[checksum := l2rcache[checksum].(callId := callId)];
      } else {
        l1rcache := l1rcache[checksum := Entry(None, callId)];
      }
      Record(SetCallId(checksum, callId));
    }

    method RCachePurge()
      requires Valid()
      modifies this
      ensures Valid() && history == old(history) + [Purge]
    {
      l2rcache := l1rcache;
      l1rcache := map[];
      Record(Purge);
    }

    /** Processes a datagram exactly when it is long enough and not remembered; a remembered one is
        answered with the remembered reply, or not at all. */
    method HandleIncoming(checksum: Token, length: nat) returns (v: Verdict)
      requires Valid()
      modifies this
      ensures Valid() && history == old(history) + [Receive(checksum, length)]
      ensures
        var h := Remembered(old(history), checksum);
        v == if length < MIN_DATAGRAM then TooShort
             else if !Present(h) then Process
             else if h.entry.reply.None? then Absorb
             else Repeat(h.entry.reply.value)
    {
      ghost var before := history;
      if length < 32 {
        Record(Receive(checksum, length));
        return TooShort;
      }
      var retrans := RcacheGet(checksum);
      FoundExactly(before, checksum);
      Record(Receive(checksum, length));
      if retrans.Some? {
        if retrans.value.reply.None? { return Absorb; }
        return Repeat(retrans.value.reply.value);
      }
      l1rcache := l1rcache[checksum := Entry(None, EMPTY)];
      return Process;
    }
  }

  // ---------------------------------------------------------------- local4remote

  /** A lookup that misses in both generations resolves the local address and stores it; a hit in
      the old generation is moved to the new one. */
  datatype AddrOp = LookUp(host: Token, resolved: Token) | Rotate

  datatype Addrs = Addrs(new_: map<Token, Token>, old_: map<Token, Token>)

  function AddrOf(c: Addrs, op: AddrOp): Token
    requires op.LookUp?
  {
    if op.host in c.new_ then c.new_[op.host]
    else if op.host in c.old_ then c.old_[op.host]
    else op.resolved
  }

  function DoAddr(c: Addrs, op: AddrOp): Addrs {
    match op
    case LookUp(host, _) =>
      if host in c.new_ then c else c.(new_ := c.new_[host := AddrOf(c, op)])
    case Rotate => Addrs(map[], c.new_)
  }

  function RunAddr(ops: seq<AddrOp>): Addrs {
    if ops == [] then Addrs(map[], map[]) else DoAddr(RunAddr(ops[..|ops| - 1]), ops[|ops| - 1])
  }

  datatype Touched = Untouched | Touched(age: nat, addr: Token)

  /** The simple cache of the promoting variant: the age counts rotations since the last lookup. */
  function LastTouch(ops: seq<AddrOp>, host: Token): Touched {
    if ops == [] then Untouched
    else
      var h := LastTouch(ops[..|ops| - 1], host);
      match ops[|ops| - 1]
      case LookUp(host', resolved) =>
        if host' != host then h
        else if h.Touched? && h.age < 2 then h.(age := 0)
        else Touched(0, resolved)
      case Rotate => if h.Touched? then h.(age := h.age + 1) else Untouched
  }

  lemma {:induction false} AddrAgrees(ops: seq<AddrOp>, host: Token)
    ensures
      var c, h := RunAddr(ops), LastTouch(ops, host);
      && (host in c.new_ <==> h.Touched? && h.age == 0)
      && (host in c.new_ ==> c.new_[host] == h.addr)
      && (host !in c.new_ ==> (host in c.old_ <==> h.Touched? && h.age == 1))
      && (host !in c.new_ && host in c.old_ ==> c.old_[host] == h.addr)
  {
    if ops != [] { AddrAgrees(ops[..|ops| - 1], host); }
  }

  /** A host keeps its local address as long as it is looked up again before two rotations pass. */
  lemma AddressKeptExactly(ops: seq<AddrOp>, host: Token, resolved: Token)
    ensures
      var h := LastTouch(ops, host);
      AddrOf(RunAddr(ops), LookUp(host, resolved)) == if h.Touched? && h.age < 2 then h.addr else resolved
  {
    AddrAgrees(ops, host);
  }

  class LocalAddresses {
    var cacheR2l: map<Token, Token>
    var cacheR2lOld: map<Token, Token>
    ghost var history: seq<AddrOp>

    ghost predicate Valid()
      reads this
    {
      RunAddr(history) == Addrs(cacheR2l, cacheR2lOld)
    }

    constructor ()
      ensures Valid() && history == []
    {
      cacheR2l, cacheR2lOld, history := map[], map[], [];
    }

    method GetAddress(host: Token, resolved: Token) returns (laddress: Token)
      requires Valid()
      modifies this
      ensures Valid() && history == old(history) + [LookUp(host, resolved)]
      ensures
        var h := LastTouch(old(history), host);
        laddress == if h.Touched? && h.age < 2 then h.addr else resolved
    {
      AddressKeptExactly(history, host, resolved);
      if host in cacheR2l {
        laddress := cacheR2l[host];
      } else if host in cacheR2lOld {
        laddress := cacheR2lOld[host];
        cacheR2l := cacheR2l[host := laddress];
      } else {
        laddress := resolved;
        cacheR2l := cacheR2l[host := laddress];
      }
      history := history + [LookUp(host, resolved)];
      assert history[..|history| - 1] == old(history);
    }

    method RotateCache()
      requires Valid()
      modifies this
      ensures Valid() && history == old(history) + [Rotate]
    {
      cacheR2lOld := cacheR2l;
      cacheR2l := map[];
      history := history + [Rotate];
      assert history[..|history| - 1] == old(history);
    }
  }
}
