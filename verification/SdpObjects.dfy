/** The SDP parser and printer as objects: parsing fills them in line by line, printing walks over them. */
module SdpObjects {
  import opened Messages
  import opened Text
  import opened SdpSpec
  import SdpProperties

  lemma {:induction false} PrintConcat(a: seq<Line>, b: seq<Line>)
    ensures Print(a + b) == Print(a) + Print(b)
  {
    if a == [] {
      assert a + b == b;
    } else {
      PrintConcat(a[1..], b);
      assert (a + b)[1..] == a[1..] + b;
    }
  }

  lemma PrintOneMore(ls: seq<Line>, l: Line)
    ensures Print(ls + [l]) == Print(ls) + PrintLine(l)
  {
    PrintConcat(ls, [l]);
    assert [l][1..] == [] && Print([l]) == PrintLine(l) + Print([]);
  }

  lemma PrintNothing()
    ensures Print([]) == "" && AttrLines([]) == []
  {
  }

  /** The loop `s += name + "=" + header + "\r\n"`. */
  method PrintLines(before: string, ls: seq<Line>) returns (s: string)
    ensures s == before + Print(ls)
  {
    hide Print;
    s := before;
    PrintNothing();
    for n := 0 to |ls|
      invariant s == before + Print(ls[..n])
    {
      s := s + (ls[n].name + "=" + ls[n].value + "\r\n");
      assert ls[..n + 1] == ls[..n] + [ls[n]];
      PrintOneMore(ls[..n], ls[n]);
    }
    assert ls[..|ls|] == ls;
  }

  lemma {:induction false} AttrLinesAppend(attrs: seq<string>, a: string)
    ensures AttrLines(attrs + [a]) == AttrLines(attrs) + [Line("a", a)]
  {
    if attrs == [] {
      assert attrs + [a] == [a];
    } else {
      AttrLinesAppend(attrs[1..], a);
      assert (attrs + [a])[1..] == attrs[1..] + [a];
    }
  }

  method PrintAttrs(before: string, attrs: seq<string>) returns (s: string)
    ensures s == before + Print(AttrLines(attrs))
  {
    hide Print, AttrLines;
    s := before;
    PrintNothing();
    for n := 0 to |attrs|
      invariant s == before + Print(AttrLines(attrs[..n]))
    {
      s := s + ("a=" + attrs[n] + "\r\n");
      assert attrs[..n + 1] == attrs[..n] + [attrs[n]];
      AttrLinesAppend(attrs[..n], attrs[n]);
      PrintOneMore(AttrLines(attrs[..n]), Line("a", attrs[n]));
      assert "a" + "=" + attrs[n] + "\r\n" == "a=" + attrs[n] + "\r\n";
    }
    assert attrs[..|attrs|] == attrs;
  }

  class SdpMediaDescription {
    var m: Option<Media>
    var i: Option<string>
    var c: Option<Conn>
    var b: Option<string>
    var k: Option<string>
    var attrs: seq<string>

    ghost function Value(): Section
      reads this
    {
      Section(m, i, c, b, k, attrs)
    }

    constructor ()
      ensures Value() == NEW_SECTION
    {
      m, i, c, b, k, attrs := None, None, None, None, None, [];
    }

    method AddHeader(name: char, header: string)
      modifies this
      ensures Value() == SdpSpec.AddHeader(old(Value()), name, header)
    {
      match name
      case 'a' => attrs := attrs + [header];
      case 'm' => m := ParseMedia(header);
      case 'i' => i := Some(header);
      case 'c' => c := ParseConn(header);
      case 'b' => b := Some(header);
      case 'k' => k := Some(header);
      case _ =>
    }

    method SetCHeader(conn: Option<Conn>)
      modifies this`c
      ensures c == conn
    {
      c := conn;
    }

    method SanityCheck() returns (e: Option<Error>)
      ensures e == if m.None? then Some(Missing('m')) else if c.None? then Some(Missing('c')) else None
    {
      if m.None? { return Some(Missing('m')); }
      if c.None? { return Some(Missing('c')); }
      e := None;
    }

    /** `all_headers`. */
    method AllHeaders() returns (ls: seq<Line>)
      ensures ls == MediaLine(m) + TextLine('i', i) + ConnLine(c) + TextLine('b', b) + TextLine('k', k)
    {
      ls := [];
      if m.Some? { ls := ls + [Line("m", MediaString(m.value))]; }
      if i.Some? { ls := ls + [Line("i", i.value)]; }
      if c.Some? { ls := ls + [Line("c", ConnString(c.value))]; }
      if b.Some? { ls := ls + [Line("b", b.value)]; }
      if k.Some? { ls := ls + [Line("k", k.value)]; }
    }

    method String() returns (s: string)
      ensures s == Print(SectionLines(Value(), false))
    {
      var ls := AllHeaders();
      s := PrintLines("", ls);
      s := PrintAttrs(s, attrs);
      PrintConcat(ls, AttrLines(attrs));
    }

    /** `LocalStr`; with `noC` the connection line is passed over. */
    method LocalStr(noC: bool) returns (s: string)
      ensures s == Print(SectionLines(Value(), noC))
    {
      hide Print, AttrLines, Kept, SectionLines;
      var ls := AllHeaders();
      s := "";
      KeptNothing(noC);
      for n := 0 to |ls|
        invariant s == Print(Kept(ls[..n], noC))
      {
        KeptNext(ls[..n], ls[n], noC);
        assert ls[..n + 1] == ls[..n] + [ls[n]];
        if noC && ls[n].name == "c" { continue; }
        s := s + (ls[n].name + "=" + ls[n].value + "\r\n");
        PrintOneMore(Kept(ls[..n], noC), ls[n]);
      }
      assert ls[..|ls|] == ls;
      s := PrintAttrs(s, attrs);
      PrintConcat(Kept(ls, noC), AttrLines(attrs));
      KeptHeaders(Value(), noC);
    }
  }

  /** The lines that are printed when connection lines may be passed over. */
  function Kept(ls: seq<Line>, noC: bool): seq<Line> {
    if ls == [] then [] else (if noC && ls[0].name == "c" then [] else [ls[0]]) + Kept(ls[1..], noC)
  }

  lemma KeptNothing(noC: bool)
    ensures Kept([], noC) == [] && Print([]) == ""
  {
  }

  lemma {:induction false} KeptNext(ls: seq<Line>, l: Line, noC: bool)
    ensures Kept(ls + [l], noC) == if noC && l.name == "c" then Kept(ls, noC) else Kept(ls, noC) + [l]
  {
    if ls == [] {
      assert ls + [l] == [l] && [l][1..] == [];
    } else {
      KeptNext(ls[1..], l, noC);
      assert (ls + [l])[1..] == ls[1..] + [l];
    }
  }

  lemma {:induction false} KeptConcat(a: seq<Line>, b: seq<Line>, noC: bool)
    ensures Kept(a + b, noC) == Kept(a, noC) + Kept(b, noC)
  {
    if a == [] {
      assert a + b == b;
    } else {
      KeptConcat(a[1..], b, noC);
      assert (a + b)[1..] == a[1..] + b;
    }
  }

  lemma KeptOne(ls: seq<Line>, noC: bool)
    requires |ls| <= 1
    ensures Kept(ls, noC) == if noC && ls != [] && ls[0].name == "c" then [] else ls
  {
    if ls != [] { assert ls[1..] == [] && ls == [ls[0]]; }
  }

  lemma KeptHeaders(s: Section, noC: bool)
    ensures Kept(MediaLine(s.m) + TextLine('i', s.i) + ConnLine(s.c) + TextLine('b', s.b) + TextLine('k', s.k), noC) +
            AttrLines(s.attrs) == SectionLines(s, noC)
  {
    var m, i, c, b, k := MediaLine(s.m), TextLine('i', s.i), ConnLine(s.c), TextLine('b', s.b), TextLine('k', s.k);
    KeptConcat(m + i + c + b, k, noC);
    KeptConcat(m + i + c, b, noC);
    KeptConcat(m + i, c, noC);
    KeptConcat(m, i, noC);
    KeptOne(m, noC);
    KeptOne(i, noC);
    KeptOne(c, noC);
    KeptOne(b, noC);
    KeptOne(k, noC);
    hide Kept, AttrLines;
  }

  // ---------------------------------------------------------------- the body

  /** Distinct objects with these values. */
  ghost predicate Shows(sections: seq<SdpMediaDescription>, values: seq<Section>)
    reads sections
  {
    |sections| == |values| && (forall k :: 0 <= k < |values| ==> sections[k].Value() == values[k]) &&
    forall j, k :: 0 <= j < k < |sections| ==> sections[j] != sections[k]
  }

  class SdpBody {
    var generic: map<char, string>
    var origin: Option<Origin>
    var attrs: seq<string>
    var conn: Option<Conn>
    var sections: seq<SdpMediaDescription>
    /** What the body says. */
    ghost var value: Sdp

    ghost predicate Valid()
      reads this, sections
    {
      value.head == Head(generic, origin, attrs) && value.conn == conn && Shows(sections, value.sections)
    }

    constructor (generic: map<char, string>, origin: Option<Origin>, attrs: seq<string>, conn: Option<Conn>,
                 sections: seq<SdpMediaDescription>, ghost values: seq<Section>)
      requires Shows(sections, values)
      ensures Valid() && value == Sdp(Head(generic, origin, attrs), conn, values)
    {
      this.generic, this.origin, this.attrs, this.conn, this.sections := generic, origin, attrs, conn, sections;
      value := Sdp(Head(generic, origin, attrs), conn, values);
    }

    /** `first_half` and `second_half`. */
    method Half(letters: seq<char>) returns (ls: seq<Line>)
      requires Valid()
      ensures ls == HeadLines(letters, value.head)
    {
      ls := [];
      for n := 0 to |letters|
        invariant ls + HeadLines(letters[n..], value.head) == HeadLines(letters, value.head)
      {
        var letter := letters[n];
        assert letters[n..][1..] == letters[n + 1..];
        if letter == 'o' {
          if origin.Some? { ls := ls + [Line("o", OriginString(origin.value))]; }
        } else if letter in generic {
          ls := ls + [Line([letter], generic[letter])];
        }
      }
    }

    /** The session part with the given connection line, and the session's attributes. */
    method PrintHead(top: Option<Conn>) returns (s: string)
      requires Valid()
      ensures s == Print(HeadLines(FIRST, value.head) + ConnLine(top) + HeadLines(SECOND, value.head) + AttrLines(value.head.attrs))
    {
      hide Print, HeadLines, AttrLines;
      var first := Half(FIRST);
      s := PrintLines("", first);
      if top.Some? {
        s := PrintLines(s, [Line("c", ConnString(top.value))]);
      } else {
        PrintNothing();
      }
      var second := Half(SECOND);
      s := PrintLines(s, second);
      s := PrintAttrs(s, attrs);
      PrintConcat(first, ConnLine(top));
      PrintConcat(first + ConnLine(top), second);
      PrintConcat(first + ConnLine(top) + second, AttrLines(attrs));
    }
  
    /** The sections; those with the hoisted connection are printed without it. */
    method PrintSections(before: string, top: Option<Conn>, local: bool) returns (s: string)
      requires Valid()
      ensures s == before + Print(AllSectionLines(value.sections, top))
    {
      hide Print, SectionLines;
      ghost var values := value.sections;
      s := before;
      assert values[0..] == values;
      for n := 0 to |sections|
        invariant s + Print(AllSectionLines(values[n..], top)) == before + Print(AllSectionLines(values, top))
      {
        var section := sections[n];
        var noC := top.Some? && section.c.Some? && ConnString(section.c.value) == ConnString(top.value);
        var t: string;
        if noC || local {
          t := section.LocalStr(noC);
        } else {
          t := section.String();
        }
        assert values[n..][0] == values[n] == section.Value() && values[n..][1..] == values[n + 1..];
        PrintConcat(SectionLines(values[n], noC), AllSectionLines(values[n + 1..], top));
        assert s + (t + Print(AllSectionLines(values[n + 1..], top))) == (s + t) + Print(AllSectionLines(values[n + 1..], top));
        s := s + t;
      }
      assert values[|sections|..] == [];
      PrintNothing();
    }

    /** The connection line that two or more sections are printed under. */
    method OptimizeC() returns (top: Option<Conn>)
      requires Valid() && forall k :: 0 <= k < |value.sections| ==> value.sections[k].c.Some?
      ensures !(|value.sections| == 1 && value.sections[0].c.Some?) ==> top == Hoisted(value)
    {
      top := None;
      if |sections| > 1 {
        assert sections[0].Value() == value.sections[0] && sections[1].Value() == value.sections[1];
        if conn.None? && sections[0].c.Some? && ConnString(sections[0].c.value) == ConnString(sections[1].c.value) {
          top := sections[0].c;
        }
      }
    }

    method Text(local: bool) returns (s: string)
      requires Valid() && forall k :: 0 <= k < |value.sections| ==> value.sections[k].c.Some?
      ensures s == Printed(value)
    {
      hide Print, HeadLines, AttrLines, AllSectionLines, ConnLine;
      var top: Option<Conn>;
      if |sections| == 1 {
        assert sections[0].Value() == value.sections[0];
      }
      if |sections| == 1 && sections[0].c.Some? {
        top := sections[0].c;
        s := PrintHead(top);
      } else {
        top := OptimizeC();
        s := PrintHead(if top.Some? then top else conn);
      }
      PrintConcat(HeadLines(FIRST, value.head) + ConnLine(TopConn(value)) + HeadLines(SECOND, value.head) +
                  AttrLines(value.head.attrs), AllSectionLines(value.sections, Hoisted(value)));
      s := PrintSections(s, top, local);
    }

    method String() returns (s: string)
      requires Valid() && forall k :: 0 <= k < |value.sections| ==> value.sections[k].c.Some?
      ensures s == Printed(value)
    {
      s := Text(false);
    }

    /** Whatever address it is printed for, the text is the same. */
    method LocalStr(hostport: string) returns (s: string)
      requires Valid() && forall k :: 0 <= k < |value.sections| ==> value.sections[k].c.Some?
      ensures s == Printed(value)
    {
      s := Text(true);
    }
  }

  // ---------------------------------------------------------------- the parser

  /** The session headers that are kept as text. */
  predicate Generic(name: char) { name in FIRST || name in SECOND }

  class SdpParser {
    var generic: map<char, string>
    var origin: Option<Origin>
    var attrs: seq<string>
    var conn: Option<Conn>
    var sections: seq<SdpMediaDescription>
    /** What the lines so far say. */
    ghost var state: State

    ghost predicate Valid()
      reads this, sections
    {
      state.head == Head(generic, origin, attrs) && state.conn == conn && Shows(sections, state.sections)
    }

    constructor ()
      ensures Valid() && state == START && sections == []
    {
      generic, origin, attrs, conn, sections, state := map[], None, [], None, [], START;
    }

    /** One line of the session part. */
    method AddSession(name: char, v: string) returns (e: Option<Error>)
      requires Valid() && sections == []
      modifies this
      ensures var r := SdpSpec.AddSession(old(state), name, v);
              if r.Ok? then e.None? && state == r.value else e == Some(r.error)
      ensures sections == [] && (e.None? ==> Valid())
    {
      e := None;
      ghost var r := SdpSpec.AddSession(state, name, v);
      if name == 'c' {
        conn := ParseConn(v);
      } else if name == 'a' {
        attrs := attrs + [v];
      } else if name == 'o' {
        origin := ParseOrigin(v);
        if origin.None? { return Some(MalformedOrigin); }
      } else if Generic(name) {
        generic := generic[name := v];
      }
      state := r.value;
    }

    /** An m= line opens a section. */
    method OpenSection()
      requires Valid()
      modifies this`sections, this`state
      ensures Valid() && |sections| == |old(sections)| + 1 && sections[..|sections| - 1] == old(sections)
      ensures fresh(sections[|sections| - 1])
      ensures state == old(state).(sections := old(state).sections + [NEW_SECTION])
    {
      var section := new SdpMediaDescription();
      sections := sections + [section];
      state := state.(sections := state.sections + [NEW_SECTION]);
    }

    /** A line of the last section. */
    method AddToLast(name: char, v: string)
      requires Valid() && sections != []
      modifies this`state, sections[|sections| - 1]
      ensures Valid()
      ensures var last := |old(state).sections| - 1;
              state == old(state).(sections := old(state).sections[last := AddHeader(old(state).sections[last], name, v)])
    {
      var last := |sections| - 1;
      sections[last].AddHeader(name, v);
      state := state.(sections := state.sections[last := AddHeader(state.sections[last], name, v)]);
    }

    method AddLine(l: Line) returns (e: Option<Error>)
      requires Valid()
      modifies this, sections
      ensures var r := SdpSpec.AddLine(old(state), l);
              if r.Ok? then e.None? && state == r.value else e == Some(r.error)
      ensures e.None? ==> Valid() && fresh(set o | o in sections && o !in old(sections))
    {
      hide SdpSpec.AddSession, SdpSpec.AddHeader;
      var name := LetterOf(l.name);
      e := None;
      if name == 'm' {
        OpenSection();
        AddToLast(name, l.value);
        ghost var ss := old(state).sections;
        assert (ss + [NEW_SECTION])[|ss| := AddHeader(NEW_SECTION, name, l.value)] == ss + [AddHeader(NEW_SECTION, name, l.value)];
      } else if sections == [] {
        e := AddSession(name, l.value);
      } else {
        AddToLast(name, l.value);
      }
    }
  
    /** The session's connection line goes to the sections that have none. */
    method InheritConn()
      requires Valid()
      modifies this`state, sections
      ensures Valid() && state == old(state).(sections := Inherit(old(state).sections, conn))
    {
      ghost var values := state.sections;
      ghost var inherited := Inherit(values, conn);
      for n := 0 to |sections|
        invariant sections == old(sections) && conn == old(conn) && state == old(state)
        invariant forall k :: 0 <= k < n ==> sections[k].Value() == inherited[k]
        invariant forall k :: n <= k < |sections| ==> sections[k].Value() == values[k]
        invariant forall j, k :: 0 <= j < k < |sections| ==> sections[j] != sections[k]
      {
        SdpProperties.InheritAt(values, conn, n);
        if conn.Some? && sections[n].c.None? {
          sections[n].SetCHeader(conn);
        }
      }
      state := state.(sections := inherited);
    }

    method CheckSections() returns (e: Option<Error>)
      requires Valid()
      ensures e == SectionError(state.sections)
    {
      ghost var values := state.sections;
      assert values[0..] == values;
      for n := 0 to |sections|
        invariant SectionError(values) == SectionError(values[n..])
      {
        assert values[n..][0] == values[n] == sections[n].Value() && values[n..][1..] == values[n + 1..];
        e := sections[n].SanityCheck();
        if e.Some? { return; }
      }
      assert values[|sections|..] == [];
      e := None;
    }

    /** A raw line: trimmed, split at its first equals sign, or passed over. */
    method AddRaw(raw: string) returns (e: Option<Error>)
      requires Valid()
      modifies this, sections
      ensures var r := AddRawLine(old(state), raw);
              if r.Ok? then e.None? && state == r.value else e == Some(r.error)
      ensures e.None? ==> Valid() && fresh(set o | o in sections && o !in old(sections))
    {
      hide TrimSpace, SplitLine, ToLower, SdpSpec.AddLine;
      e := None;
      var arr := SplitLine(TrimSpace(raw));
      if arr.Some? {
        e := AddLine(Line(ToLower(arr.value.name), arr.value.value));
      }
    }
  }

  function AddRawLine(st: State, raw: string): Result<State> {
    var l := SplitLine(TrimSpace(raw));
    if l.None? then Ok(st) else SdpSpec.AddLine(st, Line(ToLower(l.value.name), l.value.value))
  }

  lemma RawStep(st: State, raw: seq<string>, n: nat)
    requires n < |raw|
    ensures var r := AddRawLine(st, raw[n]);
            AddLines(st, LinesOf(raw[n..])) == if r.Ok? then AddLines(r.value, LinesOf(raw[n + 1..])) else r
  {
    hide TrimSpace, SplitLine, ToLower, SdpSpec.AddLine;
    LinesOfStep(raw[n..]);
    assert raw[n..][0] == raw[n] && raw[n..][1..] == raw[n + 1..];
    var rest := LinesOf(raw[n + 1..]);
    var arr := SplitLine(TrimSpace(raw[n]));
    if arr.None? {
      assert [] + rest == rest;
    } else {
      var l := Line(ToLower(arr.value.name), arr.value.value);
      assert ([l] + rest)[1..] == rest;
    }
  }

  /** The lines of a text, one by one. */
  method ParseLines(p: SdpParser, text: string) returns (e: Option<Error>)
    requires p.Valid() && p.state == START && p.sections == []
    modifies p
    ensures var r := AddLines(START, Lines(text)); if r.Ok? then e == None && p.state == r.value else e == Some(r.error)
    ensures e == None ==> p.Valid() && fresh(set o | o in p.sections)
  {
    var raw := FieldsFunc(TrimSpace(text), Newline);
    assert raw[0..] == raw;
    assert Lines(text) == LinesOf(raw);
    hide TrimSpace, FieldsFunc, LinesOf, AddLines, AddRawLine, Lines;
    e := None;
    for n := 0 to |raw|
      invariant p.Valid() && fresh(set o | o in p.sections) && e == None
      invariant AddLines(START, LinesOf(raw)) == AddLines(p.state, LinesOf(raw[n..]))
    {
      RawStep(p.state, raw, n);
      e := p.AddRaw(raw[n]);
      if e.Some? { return; }
    }
    assert raw[|raw|..] == [];
    NoMoreLines(p.state);
  }

  lemma NoMoreLines(st: State)
    ensures AddLines(st, LinesOf([])) == Ok(st)
  {
  }

  /** `ParseSdpBody`. */
  method ParseSdpBody(text: string) returns (e: Option<Error>, body: SdpBody?)
    ensures Parse(text).Err? ==> e == Some(Parse(text).error) && body == null
    ensures Parse(text).Ok? ==> e == None && body != null && fresh(body) && body.Valid() && body.value == Parse(text).value
  {
    hide Lines, AddLines, Inherit, SectionError;
    var p := new SdpParser();
    e := ParseLines(p, text);
    body := null;
    if e.Some? { return; }
    p.InheritConn();
    if 'v' !in p.generic { return Some(Missing('v')), null; }
    if p.origin.None? { return Some(Missing('o')), null; }
    if 's' !in p.generic { return Some(Missing('s')), null; }
    if 't' !in p.generic { return Some(Missing('t')), null; }
    e := p.CheckSections();
    if e.Some? { return e, null; }
    body := new SdpBody(p.generic, p.origin, p.attrs, if |p.sections| == 0 then p.conn else None, p.sections, p.state.sections);
  }
}
