/** What a parsed SDP body holds, letter by letter, and the order in which it is printed (section 5 of
    RFC 4566). */
module SdpReading {
  import opened Messages
  import opened Text
  import opened SdpSpec
  import opened SdpProperties

  /** The value of the last line with this letter. */
  function LastOf(ls: seq<Line>, letter: char): Option<string> {
    if ls == [] then None
    else if ls[|ls| - 1].name == [letter] then Some(ls[|ls| - 1].value)
    else LastOf(ls[..|ls| - 1], letter)
  }

  /** The values of all lines with this letter. */
  function AllOf(ls: seq<Line>, letter: char): seq<string> {
    if ls == [] then []
    else AllOf(ls[..|ls| - 1], letter) + if ls[|ls| - 1].name == [letter] then [ls[|ls| - 1].value] else []
  }

  /** One line more. */
  lemma OneMore(ls: seq<Line>, l: Line)
    ensures forall letter :: LastOf(ls + [l], letter) == if l.name == [letter] then Some(l.value) else LastOf(ls, letter)
    ensures AllOf(ls + [l], 'a') == AllOf(ls, 'a') + if l.name == "a" then [l.value] else []
  {
    assert (ls + [l])[..|ls|] == ls;
  }

  predicate NoMedia(ls: seq<Line>) { forall i :: 0 <= i < |ls| ==> ls[i].name != "m" }

  /** A media section: its m= line and the lines up to the next one. */
  predicate IsBlock(ls: seq<Line>) { ls != [] && ls[0].name == "m" && NoMedia(ls[1..]) }

  predicate AreBlocks(bs: seq<seq<Line>>) { forall i :: 0 <= i < |bs| ==> IsBlock(bs[i]) }

  function Flat(bs: seq<seq<Line>>): seq<Line> { if bs == [] then [] else bs[0] + Flat(bs[1..]) }

  /** Every text is a session part and the media sections after it. */
  lemma {:induction false} Divides(ls: seq<Line>) returns (session: seq<Line>, bs: seq<seq<Line>>)
    ensures ls == session + Flat(bs) && NoMedia(session) && AreBlocks(bs)
    decreases |ls|
  {
    if ls == [] { return [], []; }
    var rest, more := Divides(ls[1..]);
    assert ls == [ls[0]] + ls[1..];
    if ls[0].name == "m" {
      session, bs := [], [[ls[0]] + rest] + more;
      assert ([ls[0]] + rest)[1..] == rest;
      assert Flat(bs) == ([ls[0]] + rest) + Flat(more) by { assert bs[1..] == more; }
    } else {
      session, bs := [ls[0]] + rest, more;
    }
  }

  // ---------------------------------------------------------------- the session part

  function ConnOf(v: Option<string>): Option<Conn> { if v.Some? then ParseConn(v.value) else None }

  function OriginOf(v: Option<string>): Option<Origin> { if v.Some? then ParseOrigin(v.value) else None }

  /** The letters of the session headers that are kept as text. */
  predicate KeptAsText(letter: char) { letter in "vsiueptbrzk" }

  predicate ReadsSession(h: Head, conn: Option<Conn>, ls: seq<Line>) {
    (forall letter :: KeptAsText(letter) ==>
       (letter in h.generic <==> LastOf(ls, letter).Some?) &&
       (letter in h.generic ==> Some(h.generic[letter]) == LastOf(ls, letter))) &&
    (forall letter <- h.generic :: KeptAsText(letter)) && h.origin == OriginOf(LastOf(ls, 'o')) &&
    h.attrs == AllOf(ls, 'a') && conn == ConnOf(LastOf(ls, 'c'))
  }

  /** What a line of the session part does, with the letters written out. */
  lemma SessionLetter(st: State, name: char, v: string)
    ensures !KeptAsText('c') && !KeptAsText('a') && !KeptAsText('o')
    ensures KeptAsText(name) ==> AddSession(st, name, v) == Ok(st.(head := st.head.(generic := st.head.generic[name := v])))
    ensures !KeptAsText(name) && name !in {'c', 'a', 'o'} ==> AddSession(st, name, v) == Ok(st)
  {
  }

  lemma SessionLine(st: State, ls: seq<Line>, l: Line)
    requires st.sections == [] && ReadsSession(st.head, st.conn, ls) && l.name != "m"
    ensures AddLine(st, l).Ok? ==>
              AddLine(st, l).value.sections == [] && ReadsSession(AddLine(st, l).value.head, AddLine(st, l).value.conn, ls + [l])
  {
    var name := LetterOf(l.name);
    OneMore(ls, l);
    SessionLetter(st, name, l.value);
    LetterNamed(l);
    hide ParseConn, ParseOrigin, LastOf, AllOf, KeptAsText, LetterOf;
    if AddLine(st, l).Ok? {
      var h, h' := st.head, AddLine(st, l).value.head;
      hide AddSession, AddLine;
      forall letter | KeptAsText(letter)
        ensures (letter in h'.generic <==> LastOf(ls + [l], letter).Some?) &&
                (letter in h'.generic ==> Some(h'.generic[letter]) == LastOf(ls + [l], letter))
      {
        assert l.name == [letter] <==> name == letter;
        assert letter in h.generic <==> LastOf(ls, letter).Some?;
      }
    }
  }

  lemma LetterNamed(l: Line)
    ensures forall letter :: letter != '?' ==> (l.name == [letter] <==> LetterOf(l.name) == letter)
    ensures !KeptAsText('?')
  {
    if |l.name| == 1 { assert l.name == [LetterOf(l.name)]; }
  }

  lemma {:induction false} SessionRead(ls: seq<Line>)
    requires NoMedia(ls)
    ensures AddLines(START, ls).Ok? ==>
              AddLines(START, ls).value.sections == [] &&
              ReadsSession(AddLines(START, ls).value.head, AddLines(START, ls).value.conn, ls)
    decreases |ls|
  {
    if ls != [] {
      var n := |ls| - 1;
      assert ls == ls[..n] + [ls[n]];
      SessionRead(ls[..n]);
      AddLinesConcat(START, ls[..n], [ls[n]]);
      if AddLines(START, ls[..n]).Ok? {
        AddOne(AddLines(START, ls[..n]).value, ls[n]);
        SessionLine(AddLines(START, ls[..n]).value, ls[..n], ls[n]);
      }
    }
    hide AddLine, ReadsSession;
  }

  // ---------------------------------------------------------------- the media sections

  /** A section as its lines make it, before it inherits. */
  predicate ReadsBlock(s: Section, ls: seq<Line>)
    requires ls != []
  {
    s.m == ParseMedia(ls[0].value) && s.i == LastOf(ls, 'i') && s.c == ConnOf(LastOf(ls, 'c')) && s.b == LastOf(ls, 'b') &&
    s.k == LastOf(ls, 'k') && s.attrs == AllOf(ls, 'a')
  }

  lemma BlockLine(s: Section, ls: seq<Line>, l: Line)
    requires ls != [] && ReadsBlock(s, ls) && l.name != "m"
    ensures ReadsBlock(AddHeader(s, LetterOf(l.name), l.value), ls + [l])
  {
    OneMore(ls, l);
    hide ParseConn, ParseMedia, LastOf, AllOf;
    if |l.name| == 1 { assert l.name == [LetterOf(l.name)]; }
  }

  lemma {:induction false} BlockRead(st: State, ls: seq<Line>)
    requires IsBlock(ls)
    ensures var r := AddLines(st, ls);
            r.Ok? && r.value.head == st.head && r.value.conn == st.conn && |r.value.sections| == |st.sections| + 1 &&
            r.value.sections[..|st.sections|] == st.sections && ReadsBlock(r.value.sections[|st.sections|], ls)
    decreases |ls|
  {
    var n := |ls| - 1;
    assert ls == ls[..n] + [ls[n]];
    AddLinesConcat(st, ls[..n], [ls[n]]);
    if n == 0 {
      assert ls == [ls[0]];
      AddOne(st, ls[0]);
      FirstOfBlock(ls);
    } else {
      assert ls[1..][n - 1] == ls[n] && NoMedia(ls[..n][1..]);
      BlockRead(st, ls[..n]);
      var st1 := AddLines(st, ls[..n]).value;
      AddOne(st1, ls[n]);
      BlockLine(st1.sections[|st.sections|], ls[..n], ls[n]);
    }
    hide AddHeader, ReadsBlock;
  }

  lemma FirstOfBlock(ls: seq<Line>)
    requires |ls| == 1 && ls[0].name == "m"
    ensures ReadsBlock(AddHeader(NEW_SECTION, 'm', ls[0].value), ls)
  {
    assert ls[..0] == [];
  }

  lemma {:induction false} BlocksRead(st: State, bs: seq<seq<Line>>)
    requires AreBlocks(bs)
    ensures var r := AddLines(st, Flat(bs));
            r.Ok? && r.value.head == st.head && r.value.conn == st.conn && |r.value.sections| == |st.sections| + |bs| &&
            r.value.sections[..|st.sections|] == st.sections &&
            forall j :: 0 <= j < |bs| ==> ReadsBlock(r.value.sections[|st.sections| + j], bs[j])
    decreases |bs|
  {
    if bs != [] {
      BlockRead(st, bs[0]);
      assert Flat(bs) == bs[0] + Flat(bs[1..]);
      hide AddLine, AddLines, Flat, ReadsBlock, IsBlock;
      var st1 := AddLines(st, bs[0]).value;
      AddLinesConcat(st, bs[0], Flat(bs[1..]));
      BlocksRead(st1, bs[1..]);
      var ss := AddLines(st, Flat(bs)).value.sections;
      assert ss[..|st1.sections|] == st1.sections;
      assert ss[..|st.sections|] == ss[..|st1.sections|][..|st.sections|];
      forall j | 0 <= j < |bs| ensures ReadsBlock(ss[|st.sections| + j], bs[j]) {
        if j > 0 { assert bs[j] == bs[1..][j - 1]; } else { assert ss[|st.sections|] == st1.sections[|st.sections|]; }
      }
    }
  }

  // ---------------------------------------------------------------- the whole body

  /** The section with the session's connection where it has none of its own. */
  predicate ReadsSection(s: Section, ls: seq<Line>, conn: Option<Conn>)
    requires ls != []
  {
    var own := ConnOf(LastOf(ls, 'c'));
    s.c == (if own.Some? then own else conn) && ReadsBlock(s.(c := own), ls)
  }

  /** For every text that is accepted: each session header is kept under its letter as the last line with
      that letter says, each section likewise, attributes in order, and nothing else is kept. */
  lemma BodyRead(session: seq<Line>, bs: seq<seq<Line>>)
    requires NoMedia(session) && AreBlocks(bs)
    ensures var r, conn := Build(session + Flat(bs)), ConnOf(LastOf(session, 'c'));
            r.Ok? ==>
              ReadsSession(r.value.head, conn, session) && r.value.conn == (if bs == [] then conn else None) &&
              |r.value.sections| == |bs| && forall j :: 0 <= j < |bs| ==> ReadsSection(r.value.sections[j], bs[j], conn)
  {
    AddLinesConcat(START, session, Flat(bs));
    SessionRead(session);
    if AddLines(START, session).Ok? {
      var st := AddLines(START, session).value;
      BlocksRead(st, bs);
      var st2 := AddLines(st, Flat(bs)).value;
      assert st2.sections[..0] == [];
      forall j | 0 <= j < |bs| && Build(session + Flat(bs)).Ok?
        ensures ReadsSection(Build(session + Flat(bs)).value.sections[j], bs[j], st.conn)
      {
        InheritAt(st2.sections, st2.conn, j);
        assert ReadsBlock(st2.sections[0 + j], bs[j]);
      }
    }
    hide AddLines, Check, Inherit, ParseConn, ParseMedia, ParseOrigin;
  }

  /** A text is refused exactly for a malformed origin or a missing header. */
  predicate Acceptable(session: seq<Line>, bs: seq<seq<Line>>) {
    (forall i :: 0 <= i < |session| && session[i].name == "o" ==> ParseOrigin(session[i].value).Some?) &&
    LastOf(session, 'v').Some? && LastOf(session, 'o').Some? && LastOf(session, 's').Some? && LastOf(session, 't').Some? &&
    (forall j :: 0 <= j < |bs| ==> BlockAcceptable(bs[j], ConnOf(LastOf(session, 'c'))))
  }

  predicate BlockAcceptable(ls: seq<Line>, conn: Option<Conn>) {
    ls != [] && ParseMedia(ls[0].value).Some? && (ConnOf(LastOf(ls, 'c')).Some? || conn.Some?)
  }

  lemma {:induction false} OriginsDecide(ls: seq<Line>)
    requires NoMedia(ls)
    ensures AddLines(START, ls).Ok? <==> forall i :: 0 <= i < |ls| && ls[i].name == "o" ==> ParseOrigin(ls[i].value).Some?
    decreases |ls|
  {
    if ls != [] {
      var n := |ls| - 1;
      assert ls == ls[..n] + [ls[n]];
      OriginsDecide(ls[..n]);
      SessionRead(ls[..n]);
      AddLinesConcat(START, ls[..n], [ls[n]]);
      if AddLines(START, ls[..n]).Ok? { AddOne(AddLines(START, ls[..n]).value, ls[n]); }
      if |ls[n].name| == 1 { assert ls[n].name == [LetterOf(ls[n].name)]; }
    }
    hide ReadsSession, ParseOrigin, ParseConn;
  }

  lemma {:induction false} SectionsDecide(ss: seq<Section>)
    ensures SectionError(ss).None? <==> Complete(ss)
  {
    if ss != [] {
      SectionsDecide(ss[1..]);
      if Complete(ss[1..]) && ss[0].m.Some? && ss[0].c.Some? {
        forall k | 0 <= k < |ss| ensures ss[k].m.Some? && ss[k].c.Some? { if k > 0 { assert ss[k] == ss[1..][k - 1]; } }
      }
      if Complete(ss) { forall k | 0 <= k < |ss[1..]| ensures ss[1..][k] == ss[k + 1] { } }
    }
  }

  lemma AcceptedExactly(session: seq<Line>, bs: seq<seq<Line>>)
    requires NoMedia(session) && AreBlocks(bs)
    ensures Build(session + Flat(bs)).Ok? <==> Acceptable(session, bs)
  {
    AddLinesConcat(START, session, Flat(bs));
    OriginsDecide(session);
    SessionRead(session);
    if AddLines(START, session).Ok? {
      var st := AddLines(START, session).value;
      BlocksRead(st, bs);
      var st2 := AddLines(st, Flat(bs)).value;
      assert st2.sections[..0] == [];
      var ss := Inherit(st2.sections, st2.conn);
      SectionsDecide(ss);
      forall j | 0 <= j < |bs| ensures (ss[j].m.Some? && ss[j].c.Some?) <==> BlockAcceptable(bs[j], st.conn) {
        InheritAt(st2.sections, st2.conn, j);
        assert ReadsBlock(st2.sections[0 + j], bs[j]);
      }
      OriginPresent(session);
    }
    hide AddLines, Inherit, ParseConn, ParseMedia, ParseOrigin, SectionError;
  }

  lemma {:induction false} OriginPresent(ls: seq<Line>)
    requires forall i :: 0 <= i < |ls| && ls[i].name == "o" ==> ParseOrigin(ls[i].value).Some?
    ensures LastOf(ls, 'o').Some? <==> OriginOf(LastOf(ls, 'o')).Some?
  {
    if ls != [] { OriginPresent(ls[..|ls| - 1]); }
    hide ParseOrigin;
  }

  /** What is missing from a section: a proper media line, or any connection. */
  predicate LacksMedia(ls: seq<Line>)
    requires ls != []
  {
    ParseMedia(ls[0].value).None?
  }

  /** Why a text is refused: a malformed origin before anything else, then the first missing header in the
      order v, o, s, t, then the first section that lacks one. */
  lemma {:induction false} SectionErrorIs(ss: seq<Section>, j: nat)
    requires j < |ss| && Complete(ss[..j]) && (ss[j].m.None? || ss[j].c.None?)
    ensures SectionError(ss) == Some(Missing(if ss[j].m.None? then 'm' else 'c'))
  {
    if j > 0 {
      assert ss[0] == ss[..j][0];
      assert ss[1..][..j - 1] == ss[..j][1..];
      SectionErrorIs(ss[1..], j - 1);
    }
  }

  lemma {:induction false} MalformedFirst(ls: seq<Line>)
    ensures AddLines(START, ls).Err? ==> AddLines(START, ls).error == MalformedOrigin
    decreases |ls|
  {
    if ls != [] {
      var n := |ls| - 1;
      assert ls == ls[..n] + [ls[n]];
      MalformedFirst(ls[..n]);
      AddLinesConcat(START, ls[..n], [ls[n]]);
      if AddLines(START, ls[..n]).Ok? { AddOne(AddLines(START, ls[..n]).value, ls[n]); }
    }
    hide AddLines, AddHeader, ParseOrigin, ParseConn;
  }

  lemma RefusedFor(session: seq<Line>, bs: seq<seq<Line>>)
    requires NoMedia(session) && AreBlocks(bs)
    ensures var r, conn := Build(session + Flat(bs)), ConnOf(LastOf(session, 'c'));
            r.Err? ==>
              if !(forall i :: 0 <= i < |session| && session[i].name == "o" ==> ParseOrigin(session[i].value).Some?)
              then r.error == MalformedOrigin
              else if LastOf(session, 'v').None? then r.error == Missing('v')
              else if LastOf(session, 'o').None? then r.error == Missing('o')
              else if LastOf(session, 's').None? then r.error == Missing('s')
              else if LastOf(session, 't').None? then r.error == Missing('t')
              else FirstLacking(bs, conn, r.error)
  {
    AddLinesConcat(START, session, Flat(bs));
    OriginsDecide(session);
    MalformedFirst(session);
    SessionRead(session);
    OriginPresentIf(session);
    hide Finish, LastOf, ParseConn, ParseMedia, ParseOrigin, SectionError, FirstLacking;
    if AddLines(START, session).Ok? {
      var st := AddLines(START, session).value;
      BlocksRead(st, bs);
      hide AddLines, Inherit, ReadsSession;
      var st2 := AddLines(st, Flat(bs)).value;
      assert st2.sections[..0] == [];
      assert forall k :: 0 <= k < |bs| ==> ReadsBlock(st2.sections[0 + k], bs[k]);
      SectionsLack(st2, bs);
      HeadLacks(st2, session);
    }
  }

  /** The session headers are looked for in this order, and then the sections are looked through. */
  lemma HeadLacks(st: State, session: seq<Line>)
    requires ReadsSession(st.head, st.conn, session) && (LastOf(session, 'o').Some? <==> OriginOf(LastOf(session, 'o')).Some?)
    ensures var r, e := Finish(st), SectionError(Inherit(st.sections, st.conn));
            if LastOf(session, 'v').None? then r == Err(Missing('v'))
            else if LastOf(session, 'o').None? then r == Err(Missing('o'))
            else if LastOf(session, 's').None? then r == Err(Missing('s'))
            else if LastOf(session, 't').None? then r == Err(Missing('t'))
            else if e.Some? then r == Err(e.value) else r.Ok?
  {
    assert KeptAsText('v') && KeptAsText('s') && KeptAsText('t');
    hide LastOf, Inherit, SectionError, AllOf, ParseOrigin, ParseConn, KeptAsText;
  }

  /** The error names what the first section that is not acceptable lacks. */
  predicate FirstLacking(bs: seq<seq<Line>>, conn: Option<Conn>, error: Error) {
    exists j :: 0 <= j < |bs| && !BlockAcceptable(bs[j], conn) && (forall i :: 0 <= i < j ==> BlockAcceptable(bs[i], conn)) &&
      bs[j] != [] && error == Missing(if LacksMedia(bs[j]) then 'm' else 'c')
  }

  lemma BlockInherits(s: Section, ls: seq<Line>, conn: Option<Conn>)
    requires IsBlock(ls) && ReadsBlock(s, ls)
    ensures (s.m.Some? <==> !LacksMedia(ls)) && ((s.m.Some? && (s.c.Some? || conn.Some?)) <==> BlockAcceptable(ls, conn))
  {
    hide ParseConn, ParseMedia, LastOf, AllOf;
  }

  lemma SectionsLack(st: State, bs: seq<seq<Line>>)
    requires AreBlocks(bs) && |st.sections| == |bs| && forall k :: 0 <= k < |bs| ==> ReadsBlock(st.sections[k], bs[k])
    ensures var e := SectionError(Inherit(st.sections, st.conn));
            if e.Some? then FirstLacking(bs, st.conn, e.value) else forall k :: 0 <= k < |bs| ==> BlockAcceptable(bs[k], st.conn)
  {
    hide ParseConn, ParseMedia, LastOf, AllOf, SectionError, Inherit, ReadsBlock, NoMedia;
    var ss := Inherit(st.sections, st.conn);
    forall i | 0 <= i < |bs|
      ensures bs[i] != [] && (ss[i].m.Some? <==> !LacksMedia(bs[i])) && ((ss[i].m.Some? && ss[i].c.Some?) <==> BlockAcceptable(bs[i], st.conn))
    {
      InheritAt(st.sections, st.conn, i);
      BlockInherits(st.sections[i], bs[i], st.conn);
    }
    hide LacksMedia, BlockAcceptable, IsBlock;
    SectionsDecide(ss);
    if SectionError(ss).Some? {
      var k :| 0 <= k < |ss| && !(ss[k].m.Some? && ss[k].c.Some?);
      assert !BlockAcceptable(bs[k], st.conn);
      var j := FirstRefused(bs, st.conn);
      assert forall i :: 0 <= i < j ==> BlockAcceptable(bs[i], st.conn) && ss[i].m.Some? && ss[i].c.Some?;
      SectionErrorIs(ss, j);
    }
  }

  lemma OriginPresentIf(ls: seq<Line>)
    ensures (forall i :: 0 <= i < |ls| && ls[i].name == "o" ==> ParseOrigin(ls[i].value).Some?) ==>
              (LastOf(ls, 'o').Some? <==> OriginOf(LastOf(ls, 'o')).Some?)
  {
    if forall i :: 0 <= i < |ls| && ls[i].name == "o" ==> ParseOrigin(ls[i].value).Some? { OriginPresent(ls); }
  }

  lemma {:induction false} FirstRefused(bs: seq<seq<Line>>, conn: Option<Conn>) returns (j: nat)
    requires exists k :: 0 <= k < |bs| && !BlockAcceptable(bs[k], conn)
    ensures j < |bs| && !BlockAcceptable(bs[j], conn) && forall i :: 0 <= i < j ==> BlockAcceptable(bs[i], conn)
  {
    j := 0;
    while BlockAcceptable(bs[j], conn)
      invariant j < |bs| && forall i :: 0 <= i < j ==> BlockAcceptable(bs[i], conn)
      decreases |bs| - j
    {
      j := j + 1;
    }
    hide BlockAcceptable;
  }

  // ---------------------------------------------------------------- single headers, word by word

  /** A connection has three words, an origin six of which the third is a number, a media line three and
      then its formats. */
  lemma WordsMean(v: string)
    ensures var w := Fields(v);
            (ParseConn(v).Some? <==> |w| == 3) &&
            (ParseConn(v).Some? ==> [ParseConn(v).value.ntype, ParseConn(v).value.atype, ParseConn(v).value.addr] == w) &&
            (ParseMedia(v).Some? <==> |w| >= 3) &&
            (ParseMedia(v).Some? ==> var m := ParseMedia(v).value; [m.stype, m.port, m.transport] + m.formats == w) &&
            (ParseOrigin(v).Some? <==> |w| == 6 && ParseInt(w[2]).Some?) &&
            (ParseOrigin(v).Some? ==>
               var o := ParseOrigin(v).value;
               [o.username, o.sessionId, w[2], o.netType, o.addrType, o.addr] == w && Some(o.version) == ParseInt(w[2]))
  {
    hide Fields, ParseInt;
  }

  // ---------------------------------------------------------------- which connections are printed

  /** A connection is printed before the sections if there is one section, or the first two have the same;
      then only sections with another one have a line of their own. */
  lemma ConnectionsPrinted(b: Sdp)
    requires Canonical(b) && b.sections != []
    ensures TopConn(b) == if |b.sections| == 1 || b.sections[0].c == b.sections[1].c then b.sections[0].c else None
    ensures forall k :: 0 <= k < |b.sections| ==> (LeavesOut(b.sections[k], Hoisted(b)) <==> b.sections[k].c == TopConn(b))
  {
    forall k | 0 <= k < |b.sections| ensures b.sections[k].c.Some? && GoodConn(b.sections[k].c.value) { assert GoodSection(b.sections[k]); }
    hide GoodHead, GoodMedia, Clean, GoodConn;
    SameString();
    hide ConnString;
  }

  lemma SameString()
    ensures forall c, d :: GoodConn(c) && GoodConn(d) && ConnString(c) == ConnString(d) ==> c == d
  {
    forall c, d | GoodConn(c) && GoodConn(d) && ConnString(c) == ConnString(d) ensures c == d {
      ConnRoundTrip(c);
      ConnRoundTrip(d);
    }
  }

  // ---------------------------------------------------------------- the order of the printed lines

  /** The place of a header in the session part, and in a section. */
  function SessionPlace(name: string): int {
    if name == "v" then 0 else if name == "o" then 1 else if name == "s" then 2 else if name == "i" then 3
    else if name == "u" then 4 else if name == "e" then 5 else if name == "p" then 6 else if name == "c" then 7
    else if name == "b" then 8 else if name == "t" then 9 else if name == "r" then 10 else if name == "z" then 11
    else if name == "k" then 12 else if name == "a" then 13 else -1
  }

  function SectionPlace(name: string): int {
    if name == "m" then 0 else if name == "i" then 1 else if name == "c" then 2 else if name == "b" then 3
    else if name == "k" then 4 else if name == "a" then 5 else -1
  }

  /** Every line has its place, each place but the last is taken once, and the places are in order. */
  predicate Ordered(places: seq<int>, last: int) {
    (forall i :: 0 <= i < |places| ==> 0 <= places[i] <= last) &&
    (forall i, j :: 0 <= i < j < |places| ==> places[i] < places[j] || places[i] == last == places[j])
  }

  function SessionPlaces(ls: seq<Line>): (ps: seq<int>)
    ensures |ps| == |ls|
  {
    seq(|ls|, i requires 0 <= i < |ls| => SessionPlace(ls[i].name))
  }

  function SectionPlaces(ls: seq<Line>): (ps: seq<int>)
    ensures |ps| == |ls|
  {
    seq(|ls|, i requires 0 <= i < |ls| => SectionPlace(ls[i].name))
  }

  /** Lines in order between two places. */
  predicate Between(places: seq<int>, low: int, high: int, last: int) {
    Ordered(places, last) && forall i :: 0 <= i < |places| ==> low <= places[i] < high
  }

  lemma JoinBetween(a: seq<int>, b: seq<int>, low: int, mid: int, high: int, last: int)
    requires low <= mid <= high && Between(a, low, mid, last) && Between(b, mid, high, last)
    ensures Between(a + b, low, high, last)
  {
  }

  lemma PlacesConcat(a: seq<Line>, b: seq<Line>)
    ensures SessionPlaces(a + b) == SessionPlaces(a) + SessionPlaces(b)
    ensures SectionPlaces(a + b) == SectionPlaces(a) + SectionPlaces(b)
  {
    hide SessionPlace, SectionPlace;
  }

  lemma HeadLineBetween(letter: char, h: Head)
    requires 0 <= SessionPlace([letter]) < 13
    ensures var p := SessionPlace([letter]); Between(SessionPlaces(HeadLine(letter, h)), p, p + 1, 13)
  {
    hide OriginString;
  }

  lemma {:induction false} HeadLinesBetween(letters: seq<char>, h: Head, low: int, high: int)
    requires 0 <= low && high <= 13 && (forall k :: 0 <= k < |letters| ==> SessionPlace([letters[k]]) == low + k) && low + |letters| == high
    ensures Between(SessionPlaces(HeadLines(letters, h)), low, high, 13)
    decreases |letters|
  {
    hide SessionPlace, HeadLine;
    if letters != [] {
      HeadLineBetween(letters[0], h);
      HeadLinesBetween(letters[1..], h, low + 1, high);
      PlacesConcat(HeadLine(letters[0], h), HeadLines(letters[1..], h));
      JoinBetween(SessionPlaces(HeadLine(letters[0], h)), SessionPlaces(HeadLines(letters[1..], h)), low, low + 1, high, 13);
    }
  }

  lemma {:induction false} AttrLinesBetween(attrs: seq<string>)
    ensures Between(SessionPlaces(AttrLines(attrs)), 13, 14, 13) && Between(SectionPlaces(AttrLines(attrs)), 5, 6, 5)
  {
    if attrs != [] {
      AttrLinesBetween(attrs[1..]);
      PlacesConcat([Line("a", attrs[0])], AttrLines(attrs[1..]));
    }
  }

  /** Lines of the session part, and of a section, in order between two places. */
  predicate InSession(ls: seq<Line>, low: int, high: int) { Between(SessionPlaces(ls), low, high, 13) }

  predicate InSection(ls: seq<Line>, low: int, high: int) { Between(SectionPlaces(ls), low, high, 5) }

  lemma JoinLines(a: seq<Line>, b: seq<Line>, low: int, mid: int, high: int)
    requires low <= mid <= high
    ensures InSession(a, low, mid) && InSession(b, mid, high) ==> InSession(a + b, low, high)
    ensures InSection(a, low, mid) && InSection(b, mid, high) ==> InSection(a + b, low, high)
  {
    PlacesConcat(a, b);
    if InSession(a, low, mid) && InSession(b, mid, high) { JoinBetween(SessionPlaces(a), SessionPlaces(b), low, mid, high, 13); }
    if InSection(a, low, mid) && InSection(b, mid, high) { JoinBetween(SectionPlaces(a), SectionPlaces(b), low, mid, high, 5); }
    hide SessionPlaces, SectionPlaces, Between;
  }

  lemma ConnLineBetween(c: Option<Conn>)
    ensures InSession(ConnLine(c), 7, 8) && InSection(ConnLine(c), 2, 3) && InSection([], 2, 3)
  {
    hide ConnString;
  }

  lemma SectionLineBetween(s: Section)
    ensures InSection(MediaLine(s.m), 0, 1) && InSection(TextLine('i', s.i), 1, 2) && InSection(TextLine('b', s.b), 3, 4)
    ensures InSection(TextLine('k', s.k), 4, 5)
  {
    hide MediaString;
  }

  function SessionLines(b: Sdp): seq<Line> {
    HeadLines(FIRST, b.head) + ConnLine(TopConn(b)) + HeadLines(SECOND, b.head) + AttrLines(b.head.attrs)
  }

  /** The session part is printed in the order v o s i u e p c b t r z k a, and the sections follow. */
  lemma SessionInOrder(b: Sdp)
    ensures Emit(b) == SessionLines(b) + AllSectionLines(b.sections, Hoisted(b)) && Ordered(SessionPlaces(SessionLines(b)), 13)
  {
    LettersInOrder();
    HeadLinesBetween(FIRST, b.head, 0, 7);
    ConnLineBetween(TopConn(b));
    HeadLinesBetween(SECOND, b.head, 8, 13);
    AttrLinesBetween(b.head.attrs);
    var p, c, q, r := HeadLines(FIRST, b.head), ConnLine(TopConn(b)), HeadLines(SECOND, b.head), AttrLines(b.head.attrs);
    assert InSession(p, 0, 7) && InSession(c, 7, 8) && InSession(q, 8, 13) && InSession(r, 13, 14);
    hide HeadLines, AttrLines, AllSectionLines, TopConn, ConnLine, Hoisted, InSession, SessionPlaces, SessionPlace, Between, Ordered;
    JoinLines(p, c, 0, 7, 8);
    JoinLines(p + c, q, 0, 8, 13);
    JoinLines(p + c + q, r, 0, 13, 14);
    InSessionOrdered(SessionLines(b));
  }

  lemma LettersInOrder()
    ensures |FIRST| == 7 && |SECOND| == 5
    ensures forall k :: 0 <= k < 7 ==> SessionPlace([FIRST[k]]) == k
    ensures forall k :: 0 <= k < 5 ==> SessionPlace([SECOND[k]]) == 8 + k
  {
  }

  lemma InSessionOrdered(ls: seq<Line>)
    ensures InSession(ls, 0, 14) ==> Ordered(SessionPlaces(ls), 13)
    ensures InSection(ls, 0, 6) ==> Ordered(SectionPlaces(ls), 5)
  {
  }

  /** A section is printed in the order m i c b k a. */
  lemma SectionInOrder(s: Section, noC: bool)
    ensures Ordered(SectionPlaces(SectionLines(s, noC)), 5)
  {
    var m, i, c := MediaLine(s.m), TextLine('i', s.i), if noC then [] else ConnLine(s.c);
    var b, k, a := TextLine('b', s.b), TextLine('k', s.k), AttrLines(s.attrs);
    SectionLineBetween(s);
    ConnLineBetween(s.c);
    AttrLinesBetween(s.attrs);
    assert InSection(c, 2, 3) && InSection(a, 5, 6);
    assert SectionLines(s, noC) == m + i + c + b + k + a;
    hide MediaLine, TextLine, ConnLine, AttrLines, SectionPlaces, SectionLines, Between, InSection, Ordered;
    JoinLines(m, i, 0, 1, 2);
    JoinLines(m + i, c, 0, 2, 3);
    JoinLines(m + i + c, b, 0, 3, 4);
    JoinLines(m + i + c + b, k, 0, 4, 5);
    JoinLines(m + i + c + b + k, a, 0, 5, 6);
    InSessionOrdered(m + i + c + b + k + a);
  }

  // ---------------------------------------------------------------- texts

  /** For every text: its lines are a session part and media sections, it is accepted exactly if nothing is
      missing or malformed, and then the body is what the lines say. */
  lemma TextRead(text: string) returns (session: seq<Line>, bs: seq<seq<Line>>)
    ensures Lines(text) == session + Flat(bs) && NoMedia(session) && AreBlocks(bs)
    ensures Parse(text).Ok? <==> Acceptable(session, bs)
    ensures var conn := ConnOf(LastOf(session, 'c'));
            Parse(text).Ok? ==>
              ReadsSession(Parse(text).value.head, conn, session) && |Parse(text).value.sections| == |bs| &&
              forall j :: 0 <= j < |bs| ==> ReadsSection(Parse(text).value.sections[j], bs[j], conn)
  {
    hide Lines, Build, Acceptable, ReadsSession, ReadsSection, ParseConn;
    session, bs := Divides(Lines(text));
    AcceptedExactly(session, bs);
    BodyRead(session, bs);
  }
}
