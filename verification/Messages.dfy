/** SIP messages reduced to the fields that the transaction layer and the user agents read,
    and the transaction identifiers computed from them. */
module Messages {

  datatype Option<+T> = None | Some(value: T)

  /** A string that the engine only compares: a tag, a branch, a Call-ID, a message body. */
  type Token = nat

  /** The empty string. */
  const EMPTY: Token := 0

  type Body = Token

  /** Request methods; a name that the engine does not know is an ordinary method to it. */
  datatype Method = INVITE | ACK | CANCEL | PRACK | BYE | REFER | INFO | OPTIONS | UPDATE | Other(name: Token)

  /** The header fields that identify a request; a response carries copies of them. */
  datatype Hdr = Hdr(callId: Token, cseq: int, sipMethod: Method, fromTag: Token, toTag: Token,
                     branches: seq<Token>)

  datatype TID = TID(callId: Token, cseq: int, cseqMethod: Option<Method>, fromTag: Token, toTag: Token,
                     branch: Token)

  datatype RTID = RTID(callId: Token, fromTag: Token, rseq: int, cseq: int, sipMethod: Method)

  /** RAck header of a PRACK. */
  datatype RAck = RAck(rseq: int, cseq: int, sipMethod: Method)

  datatype Request = Request(hdr: Hdr, rack: Option<RAck>, body: Option<Body>)

  datatype Response = Response(code: int, toTag: Token, rseq: Option<int>, body: Option<Body>)

  predicate Final(r: Response) { 200 <= r.code }

  predicate Provisional(r: Response) { 100 < r.code < 200 }

  function TopBranch(h: Hdr): Token {
    if |h.branches| > 0 then h.branches[0] else EMPTY
  }

  /** `GetTId`: the three flags choose whether the CSeq method, the topmost branch and the To tag
      take part. */
  function GetTId(h: Hdr, wCSM: bool, wBRN: bool, wTTG: bool): TID {
    TID(h.callId, h.cseq, if wCSM then Some(h.sipMethod) else None, h.fromTag,
        if wTTG then h.toTag else EMPTY, if wBRN then TopBranch(h) else EMPTY)
  }

  /** Key under which a server transaction is created, and under which every request other than
      ACK and PRACK is looked up. */
  function ServerKey(h: Hdr): TID { GetTId(h, false, true, false) }

  /** Key under which an ACK is looked up. */
  function AckKey(h: Hdr): TID { GetTId(h, false, false, true) }

  /** Key of a client transaction, and of the responses to it. */
  function ClientKey(h: Hdr): TID { GetTId(h, true, true, false) }

  /** `getTIds`: one identifier per Via.  The branch is handed to `NewTID` in the position of the
      To tag, so the branch field of every identifier is empty. */
  function GetTIds(h: Hdr): (tids: seq<TID>)
    ensures |tids| == |h.branches|
  {
    seq(|h.branches|, i requires 0 <= i < |h.branches| =>
      TID(h.callId, h.cseq, Some(h.sipMethod), h.fromTag, h.branches[i], EMPTY))
  }

  /** The loop check of `incomingRequest`. */
  predicate LoopDetected(h: Hdr, tclient: set<TID>) {
    exists i :: 0 <= i < |h.branches| && GetTIds(h)[i] in tclient
  }

  /** A request that comes back with the Via of one of our own client transactions below its
      topmost one is a loop (section 16.3 of RFC 3261). */
  predicate Loops(h: Hdr, tclient: set<TID>) {
    exists i :: 0 <= i < |h.branches| &&
      TID(h.callId, h.cseq, Some(h.sipMethod), h.fromTag, EMPTY, h.branches[i]) in tclient
  }

  /** Every request our side sends has a freshly generated, non-empty branch. */
  predicate BranchesGenerated(tclient: set<TID>) {
    forall k :: k in tclient ==> k.branch != EMPTY && k.toTag == EMPTY
  }

  /** With generated branches the loop check never fires, whatever arrives ... */
  lemma LoopCheckNeverFires(h: Hdr, tclient: set<TID>)
    requires BranchesGenerated(tclient)
    ensures !LoopDetected(h, tclient)
  {
    forall i | 0 <= i < |h.branches| ensures GetTIds(h)[i] !in tclient {
      assert GetTIds(h)[i].branch == EMPTY;
    }
  }

  /** ... although the table does hold the transaction of a looping request. */
  lemma LoopCheckMissesALoop()
    ensures
      var h := Hdr(1, 1, INVITE, 2, EMPTY, [8, 9]);
      var tclient := {ClientKey(Hdr(1, 1, INVITE, 2, EMPTY, [9]))};
      BranchesGenerated(tclient) && Loops(h, tclient) && !LoopDetected(h, tclient)
  {
    var h := Hdr(1, 1, INVITE, 2, EMPTY, [8, 9]);
    var tclient := {ClientKey(Hdr(1, 1, INVITE, 2, EMPTY, [9]))};
    assert h.branches[1] == 9;
    LoopCheckNeverFires(h, tclient);
  }

  /** For any table at all the check fires exactly for a transaction whose key has no branch and
      carries one of the request's branches as its To tag. */
  lemma LoopCheckExactly(h: Hdr, tclient: set<TID>)
    ensures LoopDetected(h, tclient) <==>
      exists k :: k in tclient && k.branch == EMPTY && k.toTag in h.branches &&
        k.callId == h.callId && k.cseq == h.cseq && k.cseqMethod == Some(h.sipMethod) && k.fromTag == h.fromTag
  {
    forall k | k in tclient && k.branch == EMPTY && k.toTag in h.branches &&
        k.callId == h.callId && k.cseq == h.cseq && k.cseqMethod == Some(h.sipMethod) && k.fromTag == h.fromTag
      ensures LoopDetected(h, tclient)
    {
      var i :| 0 <= i < |h.branches| && h.branches[i] == k.toTag;
      assert GetTIds(h)[i] == k;
    }
  }

  function RTIdOf(h: Hdr, rseq: int, sipMethod: Method): RTID {
    RTID(h.callId, h.fromTag, rseq, h.cseq, sipMethod)
  }

  /** `GetRTId` of a PRACK: the CSeq comes from the RAck header. */
  function RTIdOfRAck(h: Hdr, rack: RAck): RTID {
    RTID(h.callId, h.fromTag, rack.rseq, rack.cseq, rack.sipMethod)
  }
}
