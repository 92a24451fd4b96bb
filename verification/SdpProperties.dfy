/** Printing a parsed SDP body and parsing it again gives the same body. */
module SdpProperties {
  import opened Messages
  import opened Text
  import opened SdpSpec

  // ---------------------------------------------------------------- what parsing produces

  predicate CleanOpt(v: Option<string>) { v.Some? ==> Clean(v.value) }

  predicate CleanAll(vs: seq<string>) { forall k :: 0 <= k < |vs| ==> Clean(vs[k]) }

  predicate Kept(letter: char) { (letter in FIRST || letter in SECOND) && letter != 'o' }

  predicate GoodHead(h: Head) {
    (forall k <- h.generic :: Kept(k) && Clean(h.generic[k])) && (h.origin.Some? ==> GoodOrigin(h.origin.value)) &&
    CleanAll(h.attrs)
  }

  predicate GoodSection(s: Section) {
    (s.m.Some? ==> GoodMedia(s.m.value)) && (s.c.Some? ==> GoodConn(s.c.value)) && CleanOpt(s.i) && CleanOpt(s.b) &&
    CleanOpt(s.k) && CleanAll(s.attrs)
  }

  predicate GoodSections(ss: seq<Section>) { forall k :: 0 <= k < |ss| ==> GoodSection(ss[k]) }

  predicate GoodState(st: State) {
    GoodHead(st.head) && (st.conn.Some? ==> GoodConn(st.conn.value)) && GoodSections(st.sections)
  }

  predicate Complete(ss: seq<Section>) { forall k :: 0 <= k < |ss| ==> ss[k].m.Some? && ss[k].c.Some? }

  /** A body as the parser makes it. */
  predicate Canonical(b: Sdp) {
    GoodHead(b.head) && 'v' in b.head.generic && 's' in b.head.generic && 't' in b.head.generic && b.head.origin.Some? &&
    (b.conn.Some? ==> GoodConn(b.conn.value) && b.sections == []) && GoodSections(b.sections) && Complete(b.sections)
  }

  lemma ParsedHeadersAreGood(v: string)
    ensures ParseConn(v).Some? ==> GoodConn(ParseConn(v).value)
    ensures ParseMedia(v).Some? ==> GoodMedia(ParseMedia(v).value)
    ensures ParseOrigin(v).Some? ==> GoodOrigin(ParseOrigin(v).value)
  {
    FieldsAreWithout(v, Space);
    var w := Fields(v);
    assert forall k :: 0 <= k < |w| ==> Word(w[k]);
    hide FieldsFunc, ParseInt, Without;
  }

  lemma AddHeaderKeepsGood(s: Section, name: char, v: string)
    requires GoodSection(s) && Clean(v)
    ensures GoodSection(AddHeader(s, name, v))
  {
    ParsedHeadersAreGood(v);
    hide ParseConn, ParseMedia, GoodConn, GoodMedia, Clean;
  }

  lemma AddLineKeepsGood(st: State, l: Line)
    requires GoodState(st) && Clean(l.value)
    ensures AddLine(st, l).Ok? ==> GoodState(AddLine(st, l).value)
  {
    var name := LetterOf(l.name);
    ParsedHeadersAreGood(l.value);
    AddHeaderKeepsGood(NEW_SECTION, name, l.value);
    if st.sections != [] { AddHeaderKeepsGood(st.sections[|st.sections| - 1], name, l.value); }
    hide AddHeader, ParseConn, ParseMedia, ParseOrigin, GoodConn, GoodMedia, GoodOrigin, Clean, GoodSection;
  }

  lemma {:induction false} AddLinesKeepsGood(st: State, ls: seq<Line>)
    requires GoodState(st) && AllClean(ls)
    ensures AddLines(st, ls).Ok? ==> GoodState(AddLines(st, ls).value)
    decreases |ls|
  {
    if ls != [] {
      AddLineKeepsGood(st, ls[0]);
      if AddLine(st, ls[0]).Ok? { AddLinesKeepsGood(AddLine(st, ls[0]).value, ls[1..]); }
    }
    hide AddLine, GoodState, Clean;
  }

  lemma {:induction false} InheritKeepsGood(ss: seq<Section>, c: Option<Conn>)
    requires GoodSections(ss) && (c.Some? ==> GoodConn(c.value))
    ensures GoodSections(Inherit(ss, c))
  {
    if ss != [] { InheritKeepsGood(ss[1..], c); }
    hide GoodConn, GoodMedia, Clean;
  }

  lemma {:induction false} CheckedSections(ss: seq<Section>)
    requires SectionError(ss).None?
    ensures Complete(ss)
  {
    if ss != [] { CheckedSections(ss[1..]); }
  }

  lemma FinishIsCanonical(st: State)
    requires GoodState(st) && Finish(st).Ok?
    ensures Canonical(Finish(st).value)
  {
    InheritKeepsGood(st.sections, st.conn);
    CheckedSections(Inherit(st.sections, st.conn));
    hide SectionError, GoodHead, GoodConn, GoodSections, Complete;
  }

  /** Whatever text parses, parses to a canonical body. */
  lemma ParsedIsCanonical(text: string)
    ensures Parse(text).Ok? ==> Canonical(Parse(text).value)
  {
    hide Lines, AddLines, Finish, GoodState, Canonical;
    if Parse(text).Ok? {
      ParsedLinesAreClean(text);
      StartIsGood();
      AddLinesKeepsGood(START, Lines(text));
      FinishIsCanonical(AddLines(START, Lines(text)).value);
    }
  }

  lemma StartIsGood()
    ensures GoodState(START)
  {
  }

  // ---------------------------------------------------------------- printed lines parse to the same body

  lemma {:induction false} AddLinesConcat(st: State, a: seq<Line>, b: seq<Line>)
    ensures AddLines(st, a + b) == (if AddLines(st, a).Ok? then AddLines(AddLines(st, a).value, b) else AddLines(st, a))
    decreases |a|
  {
    hide AddLine;
    if a == [] {
      assert a + b == b;
    } else {
      assert (a + b)[1..] == a[1..] + b;
      if AddLine(st, a[0]).Ok? { AddLinesConcat(AddLine(st, a[0]).value, a[1..], b); }
    }
  }

  lemma AddOne(st: State, l: Line)
    ensures AddLines(st, [l]) == AddLine(st, l)
  {
    hide AddLine;
    var r := AddLine(st, l);
    if r.Ok? { assert AddLines(r.value, [l][1..]) == Ok(r.value); }
  }

  /** The lines lead from one state to another. */
  predicate Leads(st: State, ls: seq<Line>, st': State) { AddLines(st, ls) == Ok(st') }

  lemma LeadsOn(st: State, a: seq<Line>, st1: State, b: seq<Line>, st2: State)
    requires Leads(st, a, st1) && Leads(st1, b, st2)
    ensures Leads(st, a + b, st2)
  {
    AddLinesConcat(st, a, b);
  }

  // Sections

  function LastSection(st: State): Section
    requires st.sections != []
  {
    st.sections[|st.sections| - 1]
  }

  function WithLast(st: State, s: Section): State
    requires st.sections != []
  {
    st.(sections := st.sections[|st.sections| - 1 := s])
  }

  lemma SectionLine(st: State, l: Line)
    requires st.sections != [] && LetterOf(l.name) != 'm'
    ensures Leads(st, [l], WithLast(st, AddHeader(LastSection(st), LetterOf(l.name), l.value)))
  {
    AddOne(st, l);
    hide AddHeader, LetterOf;
  }

  lemma WithLastTwice(st: State, s: Section, s': Section)
    requires st.sections != []
    ensures WithLast(st, s).sections != [] && LastSection(WithLast(st, s)) == s && WithLast(WithLast(st, s), s') == WithLast(st, s')
    ensures WithLast(st, LastSection(st)) == st
  {
  }

  lemma {:induction false} AttrsLead(st: State, s: Section, attrs: seq<string>)
    requires st.sections != []
    ensures Leads(WithLast(st, s), AttrLines(attrs), WithLast(st, s.(attrs := s.attrs + attrs)))
    decreases |attrs|
  {
    WithLastTwice(st, s, s);
    if attrs == [] {
      assert s.attrs + attrs == s.attrs;
    } else {
      var l := Line("a", attrs[0]);
      var s1 := s.(attrs := s.attrs + [attrs[0]]);
      SectionLine(WithLast(st, s), l);
      WithLastTwice(st, s, s1);
      AttrsLead(st, s1, attrs[1..]);
      assert s1.attrs + attrs[1..] == s.attrs + attrs;
      LeadsOn(WithLast(st, s), [l], WithLast(st, s1), AttrLines(attrs[1..]), WithLast(st, s.(attrs := s.attrs + attrs)));
    }
  }

  /** The optional lines of a section, one after the other. */
  lemma TextLead(st: State, s: Section, letter: char, v: Option<string>)
    requires st.sections != [] && (letter == 'i' || letter == 'b' || letter == 'k')
    requires if letter == 'i' then s.i.None? else if letter == 'b' then s.b.None? else s.k.None?
    ensures Leads(WithLast(st, s), TextLine(letter, v),
                  WithLast(st, if letter == 'i' then s.(i := v) else if letter == 'b' then s.(b := v) else s.(k := v)))
  {
    WithLastTwice(st, s, s);
    if v.Some? {
      SectionLine(WithLast(st, s), Line([letter], v.value));
      WithLastTwice(st, s, AddHeader(s, letter, v.value));
    }
  }

  lemma ConnLead(st: State, s: Section, c: Option<Conn>)
    requires st.sections != [] && s.c.None? && (c.Some? ==> GoodConn(c.value))
    ensures Leads(WithLast(st, s), ConnLine(c), WithLast(st, s.(c := c)))
  {
    WithLastTwice(st, s, s);
    if c.Some? {
      ConnRoundTrip(c.value);
      SectionLine(WithLast(st, s), Line("c", ConnString(c.value)));
      WithLastTwice(st, s, s.(c := c));
    }
    hide ConnString, ParseConn;
  }

  /** The first line of a section. */
  lemma MediaLead(st: State, m: Media)
    requires GoodMedia(m)
    ensures Leads(st, MediaLine(Some(m)), st.(sections := st.sections + [NEW_SECTION.(m := Some(m))]))
  {
    MediaRoundTrip(m);
    AddOne(st, Line("m", MediaString(m)));
    hide MediaString, ParseMedia;
  }

  lemma SectionLead(st: State, s: Section, noC: bool)
    requires GoodSection(s) && s.m.Some?
    ensures Leads(st, SectionLines(s, noC), st.(sections := st.sections + [if noC then s.(c := None) else s]))
  {
    hide Leads, MediaLine, TextLine, ConnLine, AttrLines, WithLast, LastSection;
    var s0 := NEW_SECTION.(m := s.m);
    var base := st.(sections := st.sections + [s0]);
    var s1 := s0.(i := s.i);
    var s2 := if noC then s1 else s1.(c := s.c);
    var s3 := s2.(b := s.b);
    var s4 := s3.(k := s.k);
    var s5 := s4.(attrs := s4.attrs + s.attrs);
    LastIsNew(st, s0, s5);
    MediaLead(st, s.m.value);
    TextLead(base, s0, 'i', s.i);
    LeadsOn(st, MediaLine(s.m), base, TextLine('i', s.i), WithLast(base, s1));
    var c := if noC then [] else ConnLine(s.c);
    if noC { LeadsNowhere(WithLast(base, s1)); } else { ConnLead(base, s1, s.c); }
    LeadsOn(st, MediaLine(s.m) + TextLine('i', s.i), WithLast(base, s1), c, WithLast(base, s2));
    TextLead(base, s2, 'b', s.b);
    LeadsOn(st, MediaLine(s.m) + TextLine('i', s.i) + c, WithLast(base, s2), TextLine('b', s.b), WithLast(base, s3));
    TextLead(base, s3, 'k', s.k);
    LeadsOn(st, MediaLine(s.m) + TextLine('i', s.i) + c + TextLine('b', s.b), WithLast(base, s3), TextLine('k', s.k),
            WithLast(base, s4));
    AttrsLead(base, s4, s.attrs);
    LeadsOn(st, MediaLine(s.m) + TextLine('i', s.i) + c + TextLine('b', s.b) + TextLine('k', s.k), WithLast(base, s4),
            AttrLines(s.attrs), WithLast(base, s5));
    assert s5 == if noC then s.(c := None) else s by { assert [] + s.attrs == s.attrs; }
  }

  lemma LeadsNowhere(st: State)
    ensures Leads(st, [], st)
  {
  }

  lemma LastIsNew(st: State, s: Section, s': Section)
    ensures var base := st.(sections := st.sections + [s]);
            WithLast(base, s) == base && WithLast(base, s') == st.(sections := st.sections + [s'])
  {
  }

  function Bared(sections: seq<Section>, top: Option<Conn>): seq<Section> {
    if sections == [] then []
    else [if LeavesOut(sections[0], top) then sections[0].(c := None) else sections[0]] + Bared(sections[1..], top)
  }

  lemma {:induction false} SectionsLead(st: State, sections: seq<Section>, top: Option<Conn>)
    requires GoodSections(sections) && forall k :: 0 <= k < |sections| ==> sections[k].m.Some?
    ensures Leads(st, AllSectionLines(sections, top), st.(sections := st.sections + Bared(sections, top)))
    decreases |sections|
  {
    hide Leads, SectionLines, LeavesOut, GoodSection;
    if sections == [] {
      LeadsNowhere(st);
      assert st.sections + Bared(sections, top) == st.sections;
    } else {
      var noC := LeavesOut(sections[0], top);
      var s := if noC then sections[0].(c := None) else sections[0];
      var st1 := st.(sections := st.sections + [s]);
      SectionLead(st, sections[0], noC);
      SectionsLead(st1, sections[1..], top);
      assert st1.sections + Bared(sections[1..], top) == st.sections + Bared(sections, top);
      LeadsOn(st, SectionLines(sections[0], noC), st1, AllSectionLines(sections[1..], top),
              st.(sections := st.sections + Bared(sections, top)));
    }
  }

  /** What was left out is inherited again. */
  lemma {:induction false} InheritsBack(sections: seq<Section>, top: Option<Conn>, c: Option<Conn>)
    requires GoodSections(sections) && Complete(sections) && (top.Some? ==> GoodConn(top.value) && c == top)
    ensures Inherit(Bared(sections, top), c) == sections
  {
    if sections != [] {
      InheritsBack(sections[1..], top, c);
      assert Bared(sections, top)[1..] == Bared(sections[1..], top);
      if LeavesOut(sections[0], top) {
        ConnRoundTrip(sections[0].c.value);
        ConnRoundTrip(top.value);
      }
    }
    hide ConnString, ParseConn, GoodMedia, Clean;
  }

  lemma {:induction false} CompleteHasNoError(sections: seq<Section>)
    requires Complete(sections)
    ensures SectionError(sections).None?
  {
    if sections != [] { CompleteHasNoError(sections[1..]); }
  }

  // The session part

  /** The headers under these letters. */
  function Part(h: Head, letters: set<char>): Head {
    Head(map k | k in h.generic && k in letters :: h.generic[k], if 'o' in letters then h.origin else None, [])
  }

  lemma OriginLead(st: State, o: Origin)
    requires st.sections == [] && GoodOrigin(o)
    ensures Leads(st, [Line("o", OriginString(o))], st.(head := st.head.(origin := Some(o))))
  {
    OriginRoundTrip(o);
    AddOne(st, Line("o", OriginString(o)));
    hide OriginString, ParseOrigin, ParseConn, GoodOrigin;
  }

  lemma KeptLead(st: State, letter: char, v: string)
    requires st.sections == [] && Kept(letter)
    ensures Leads(st, [Line([letter], v)], st.(head := st.head.(generic := st.head.generic[letter := v])))
  {
    AddOne(st, Line([letter], v));
    hide ParseOrigin, ParseConn;
  }

  lemma HeadLineLead(h: Head, done: set<char>, letter: char, conn: Option<Conn>)
    requires GoodHead(h) && (letter in FIRST || letter in SECOND) && letter !in done
    ensures Leads(State(Part(h, done), conn, []), HeadLine(letter, h), State(Part(h, done + {letter}), conn, []))
  {
    var st := State(Part(h, done), conn, []);
    if letter == 'o' {
      assert Part(h, done + {letter}).generic == Part(h, done).generic;
      if h.origin.Some? { OriginLead(st, h.origin.value); } else { LeadsNowhere(st); }
    } else if letter in h.generic {
      KeptLead(st, letter, h.generic[letter]);
      assert Part(h, done).generic[letter := h.generic[letter]] == Part(h, done + {letter}).generic;
    } else {
      assert Part(h, done + {letter}).generic == Part(h, done).generic;
      LeadsNowhere(st);
    }
    hide OriginString, ParseOrigin, ParseConn, GoodOrigin, Clean, Leads;
  }

  function Letters(letters: seq<char>): set<char> { set c | c in letters }

  predicate Distinct(letters: seq<char>) { forall i, j :: 0 <= i < j < |letters| ==> letters[i] != letters[j] }

  lemma {:induction false} HeadLinesLead(h: Head, done: set<char>, letters: seq<char>, conn: Option<Conn>)
    requires GoodHead(h) && Distinct(letters)
    requires forall k :: 0 <= k < |letters| ==> (letters[k] in FIRST || letters[k] in SECOND) && letters[k] !in done
    ensures Leads(State(Part(h, done), conn, []), HeadLines(letters, h), State(Part(h, done + Letters(letters)), conn, []))
    decreases |letters|
  {
    hide Leads, HeadLine, Part, GoodHead;
    if letters == [] {
      assert done + Letters(letters) == done;
      LeadsNowhere(State(Part(h, done), conn, []));
    } else {
      var done1 := done + {letters[0]};
      HeadLineLead(h, done, letters[0], conn);
      HeadLinesLead(h, done1, letters[1..], conn);
      assert done1 + Letters(letters[1..]) == done + Letters(letters) by {
        assert letters == [letters[0]] + letters[1..];
      }
      LeadsOn(State(Part(h, done), conn, []), HeadLine(letters[0], h), State(Part(h, done1), conn, []),
              HeadLines(letters[1..], h), State(Part(h, done + Letters(letters)), conn, []));
    }
  }

  lemma {:induction false} SessionAttrsLead(st: State, attrs: seq<string>)
    requires st.sections == []
    ensures Leads(st, AttrLines(attrs), st.(head := st.head.(attrs := st.head.attrs + attrs)))
    decreases |attrs|
  {
    if attrs == [] {
      assert st.head.attrs + attrs == st.head.attrs;
    } else {
      var l := Line("a", attrs[0]);
      var st1 := st.(head := st.head.(attrs := st.head.attrs + [attrs[0]]));
      AddOne(st, l);
      SessionAttrsLead(st1, attrs[1..]);
      assert st1.head.attrs + attrs[1..] == st.head.attrs + attrs;
      LeadsOn(st, [l], st1, AttrLines(attrs[1..]), st.(head := st.head.(attrs := st.head.attrs + attrs)));
    }
  }

  lemma SessionConnLead(h: Head, c: Option<Conn>)
    requires c.Some? ==> GoodConn(c.value)
    ensures Leads(State(h, None, []), ConnLine(c), State(h, c, []))
  {
    if c.Some? {
      ConnRoundTrip(c.value);
      AddOne(State(h, None, []), Line("c", ConnString(c.value)));
    }
    hide ConnString, ParseConn;
  }

  lemma AllLetters(h: Head)
    requires GoodHead(h)
    ensures Part(h, {}) == START.head && Part(h, {} + Letters(FIRST) + Letters(SECOND)) == h.(attrs := [])
  {
    var all := {} + Letters(FIRST) + Letters(SECOND);
    forall k | k in h.generic ensures k in all {
      assert Kept(k);
    }
    assert FIRST[1] == 'o';
    assert Part(h, all).generic == h.generic;
  }

  lemma TopIsGood(b: Sdp)
    requires Canonical(b)
    ensures TopConn(b).Some? ==> GoodConn(TopConn(b).value)
    ensures Hoisted(b).Some? ==> GoodConn(Hoisted(b).value) && TopConn(b) == Hoisted(b)
    ensures b.sections == [] ==> TopConn(b) == b.conn
  {
    if b.sections != [] { assert GoodSection(b.sections[0]); }
    hide ConnString, GoodConn, GoodHead, GoodMedia, Clean;
  }

  /** Where the printed lines of a body lead. */
  lemma EmitLeads(b: Sdp)
    requires Canonical(b)
    ensures Leads(START, Emit(b), State(b.head, TopConn(b), Bared(b.sections, Hoisted(b))))
  {
    hide Leads, HeadLines, AttrLines, ConnLine, AllSectionLines, Part, GoodConn, GoodSections, TopConn, Hoisted, Bared, Letters,
      GoodHead;
    var h, c := b.head, TopConn(b);
    var l1, l2 := Letters(FIRST), Letters(SECOND);
    AllLetters(h);
    TopIsGood(b);
    var s1, s2 := State(Part(h, {} + l1), None, []), State(Part(h, {} + l1), c, []);
    var s3, s4 := State(h.(attrs := []), c, []), State(h, c, []);
    SessionHeads(h, c);
    var a, cl, d, e := HeadLines(FIRST, h), ConnLine(c), HeadLines(SECOND, h), AttrLines(h.attrs);
    SessionConnLead(Part(h, {} + l1), c);
    LeadsOn(START, a, s1, cl, s2);
    LeadsOn(START, a + cl, s2, d, s3);
    SessionAttrsLead(s3, h.attrs);
    assert [] + h.attrs == h.attrs;
    LeadsOn(START, a + cl + d, s3, e, s4);
    SectionsLead(s4, b.sections, Hoisted(b));
    assert [] + Bared(b.sections, Hoisted(b)) == Bared(b.sections, Hoisted(b));
    LeadsOn(START, a + cl + d + e, s4, AllSectionLines(b.sections, Hoisted(b)),
            State(b.head, TopConn(b), Bared(b.sections, Hoisted(b))));
  }

  lemma LettersOk()
    ensures Distinct(FIRST) && Distinct(SECOND)
    ensures forall k :: 0 <= k < |SECOND| ==> SECOND[k] !in {} + Letters(FIRST)
  {
  }

  lemma SessionHeads(h: Head, c: Option<Conn>)
    requires GoodHead(h)
    ensures Leads(START, HeadLines(FIRST, h), State(Part(h, {} + Letters(FIRST)), None, []))
    ensures Leads(State(Part(h, {} + Letters(FIRST)), c, []), HeadLines(SECOND, h), State(h.(attrs := []), c, []))
  {
    hide Leads, HeadLines, Part, GoodHead, Letters, Distinct;
    AllLetters(h);
    LettersOk();
    HeadLinesLead(h, {}, FIRST, None);
    HeadLinesLead(h, {} + Letters(FIRST), SECOND, c);
  }

  /** Parsing the lines that are printed for a body gives the body back. */
  lemma BuildOfEmit(b: Sdp)
    requires Canonical(b)
    ensures Build(Emit(b)) == Ok(b)
  {
    EmitLeads(b);
    TopIsGood(b);
    InheritsBack(b.sections, Hoisted(b), TopConn(b));
    CompleteHasNoError(b.sections);
    hide Emit, AddLines, Inherit, TopConn, Hoisted, GoodConn, GoodHead, GoodSections, SectionError;
  }

  // ---------------------------------------------------------------- printed text

  lemma {:induction false} JoinIsClean(words: seq<string>)
    requires Words(words) && words != []
    ensures Join(words) != "" && Clean(Join(words))
  {
    WordIsClean(words[0]);
    if |words| > 1 {
      JoinIsClean(words[1..]);
      var a, b, j := words[0], Join(words[1..]), Join(words);
      assert j == a + " " + b;
      forall k | 0 <= k < |j| ensures !Separates(Newline, j[k]) {
        if k < |a| { assert j[k] == a[k]; } else if k > |a| { assert j[k] == b[k - |a| - 1]; }
      }
      assert j[|j| - 1] == b[|b| - 1];
    }
    hide Join, IsSpace;
  }

  lemma WordIsClean(w: string)
    requires Word(w)
    ensures Clean(w)
  {
    forall k | 0 <= k < |w| ensures !Separates(Newline, w[k]) {
      assert !Separates(Space, w[k]);
    }
  }

  lemma HeadersAreClean()
    ensures forall c: Conn :: GoodConn(c) ==> Clean(ConnString(c))
    ensures forall m: Media :: GoodMedia(m) ==> Clean(MediaString(m))
    ensures forall o: Origin :: GoodOrigin(o) ==> Clean(OriginString(o))
  {
    hide Clean, Join, Word;
    forall c: Conn | GoodConn(c) ensures Clean(ConnString(c)) {
      JoinIsClean([c.ntype, c.atype, c.addr]);
    }
    forall m: Media | GoodMedia(m) ensures Clean(MediaString(m)) {
      JoinIsClean([m.stype, m.port, m.transport] + m.formats);
    }
    forall o: Origin | GoodOrigin(o) ensures Clean(OriginString(o)) {
      ParseOfFormat(o.version);
      JoinIsClean([o.username, o.sessionId, FormatInt(o.version), o.netType, o.addrType, o.addr]);
    }
  }

  lemma {:induction false} AttrLinesPrintable(attrs: seq<string>)
    requires CleanAll(attrs)
    ensures AllPrintable(AttrLines(attrs))
  {
    if attrs != [] { AttrLinesPrintable(attrs[1..]); }
    hide Clean;
  }

  lemma SectionLinesPrintable(s: Section, noC: bool)
    requires GoodSection(s)
    ensures AllPrintable(SectionLines(s, noC))
  {
    HeadersAreClean();
    AttrLinesPrintable(s.attrs);
    hide Clean, ConnString, MediaString, GoodConn, GoodMedia, AttrLines;
  }

  lemma {:induction false} AllSectionLinesPrintable(sections: seq<Section>, top: Option<Conn>)
    requires GoodSections(sections)
    ensures AllPrintable(AllSectionLines(sections, top))
  {
    if sections != [] {
      SectionLinesPrintable(sections[0], LeavesOut(sections[0], top));
      AllSectionLinesPrintable(sections[1..], top);
    }
    hide GoodSection, PrintableLine, SectionLines, LeavesOut;
  }

  lemma {:induction false} HeadLinesPrintable(letters: seq<char>, h: Head)
    requires GoodHead(h) && forall k :: 0 <= k < |letters| ==> letters[k] in FIRST || letters[k] in SECOND
    ensures AllPrintable(HeadLines(letters, h))
  {
    if letters != [] {
      HeadLinePrintable(letters[0], h);
      HeadLinesPrintable(letters[1..], h);
    }
    hide GoodHead, PrintableLine, HeadLine;
  }

  lemma HeadLinePrintable(letter: char, h: Head)
    requires GoodHead(h) && (letter in FIRST || letter in SECOND)
    ensures AllPrintable(HeadLine(letter, h))
  {
    HeadersAreClean();
    assert 'a' <= letter <= 'z';
    hide Clean, OriginString, GoodOrigin;
  }

  lemma PrintableConcat(a: seq<Line>, b: seq<Line>)
    requires AllPrintable(a) && AllPrintable(b)
    ensures AllPrintable(a + b)
  {
    hide PrintableLine;
  }

  lemma ConnLinePrintable(c: Option<Conn>)
    requires c.Some? ==> GoodConn(c.value)
    ensures AllPrintable(ConnLine(c))
  {
    HeadersAreClean();
    hide Clean, ConnString, GoodConn;
  }

  lemma EmitIsPrintable(b: Sdp)
    requires Canonical(b)
    ensures AllPrintable(Emit(b))
  {
    hide GoodConn, GoodHead, GoodSections, TopConn, Hoisted, HeadLines, AttrLines, AllSectionLines, ConnLine, AllPrintable, CleanAll;
    TopIsGood(b);
    HeadLinesPrintable(FIRST, b.head);
    HeadLinesPrintable(SECOND, b.head);
    HeadAttrs(b.head);
    AllSectionLinesPrintable(b.sections, Hoisted(b));
    ConnLinePrintable(TopConn(b));
    var a, c, d, e := HeadLines(FIRST, b.head), ConnLine(TopConn(b)), HeadLines(SECOND, b.head), AttrLines(b.head.attrs);
    PrintableConcat(a, c);
    PrintableConcat(a + c, d);
    PrintableConcat(a + c + d, e);
    PrintableConcat(a + c + d + e, AllSectionLines(b.sections, Hoisted(b)));
  }

  lemma HeadAttrs(h: Head)
    requires GoodHead(h)
    ensures AllPrintable(AttrLines(h.attrs))
  {
    AttrLinesPrintable(h.attrs);
  }

  // ---------------------------------------------------------------- main results

  /** For every text that parses: what is printed for it parses to the same body. */
  lemma ParseOfPrinted(text: string)
    ensures Parse(text).Ok? ==> Parse(Printed(Parse(text).value)) == Parse(text)
  {
    hide Parse, Build, Emit, Lines, Print, Canonical, Printed;
    ParsedIsCanonical(text);
    if Parse(text).Ok? {
      var b := Parse(text).value;
      EmitIsPrintable(b);
      LinesOfPrint(Emit(b));
      BuildOfEmit(b);
      ParsedPrinted(b);
    }
  }

  lemma ParsedPrinted(b: Sdp)
    ensures Parse(Printed(b)) == Build(Lines(Print(Emit(b))))
  {
  }

  /** The connection line in force for a section: its own, or the session's (section 5.7 of RFC 4566). */
  function InForce(st: State, k: nat): Option<Conn>
    requires k < |st.sections|
  {
    if st.sections[k].c.Some? then st.sections[k].c else st.conn
  }

  lemma {:induction false} InheritAt(sections: seq<Section>, c: Option<Conn>, k: nat)
    requires k < |sections|
    ensures Inherit(sections, c)[k] == if sections[k].c.None? then sections[k].(c := c) else sections[k]
  {
    if k > 0 { InheritAt(sections[1..], c, k - 1); }
  }

  /** However many sections share or do not share the hoisted line, the printed lines put every section
      under the connection it had. */
  lemma ConnectionsKept(b: Sdp, k: nat)
    requires Canonical(b) && k < |b.sections|
    ensures var r := AddLines(START, Emit(b)); r.Ok? && |r.value.sections| == |b.sections| && InForce(r.value, k) == b.sections[k].c
  {
    EmitLeads(b);
    TopIsGood(b);
    InheritsBack(b.sections, Hoisted(b), TopConn(b));
    InheritAt(Bared(b.sections, Hoisted(b)), TopConn(b), k);
    hide Emit, AddLines, Inherit, Bared, TopConn, Hoisted, GoodConn, GoodHead, GoodSections;
  }
}
