/** SDP bodies: what the parser makes of the lines of a text, and which lines are printed for a body. */
module SdpSpec {
  import opened Messages
  import opened Text

  datatype Result<T> = Ok(value: T) | Err(error: Error)

  datatype Error = MalformedOrigin | Missing(header: char)

  datatype Origin = Origin(username: string, sessionId: string, version: int, netType: string, addrType: string,
                           addr: string)

  datatype Conn = Conn(ntype: string, atype: string, addr: string)

  datatype Media = Media(stype: string, port: string, transport: string, formats: seq<string>)

  datatype Section = Section(m: Option<Media>, i: Option<string>, c: Option<Conn>, b: Option<string>, k: Option<string>,
                             attrs: seq<string>)

  /** The session part.  `generic` holds the headers that are kept as text, under their letters. */
  datatype Head = Head(generic: map<char, string>, origin: Option<Origin>, attrs: seq<string>)

  /** `conn` is only kept by a body without media sections. */
  datatype Sdp = Sdp(head: Head, conn: Option<Conn>, sections: seq<Section>)

  const NEW_SECTION: Section := Section(None, None, None, None, None, [])

  /** The letters of the session headers in the order they are printed, before and after the c= line. */
  const FIRST: seq<char> := ['v', 'o', 's', 'i', 'u', 'e', 'p']
  const SECOND: seq<char> := ['b', 't', 'r', 'z', 'k']

  // ---------------------------------------------------------------- single headers

  function ParseConn(v: string): Option<Conn> {
    var w := Fields(v);
    if |w| != 3 then None else Some(Conn(w[0], w[1], w[2]))
  }

  function ConnString(c: Conn): string { Join([c.ntype, c.atype, c.addr]) }

  function ParseMedia(v: string): Option<Media> {
    var w := Fields(v);
    if |w| < 3 then None else Some(Media(w[0], w[1], w[2], w[3..]))
  }

  function MediaString(m: Media): string { Join([m.stype, m.port, m.transport] + m.formats) }

  function ParseOrigin(v: string): Option<Origin> {
    var w := Fields(v);
    if |w| != 6 then None
    else
      var n := ParseInt(w[2]);
      if n.None? then None else Some(Origin(w[0], w[1], n.value, w[3], w[4], w[5]))
  }

  function OriginString(o: Origin): string {
    Join([o.username, o.sessionId, FormatInt(o.version), o.netType, o.addrType, o.addr])
  }

  predicate GoodConn(c: Conn) { Word(c.ntype) && Word(c.atype) && Word(c.addr) }

  predicate GoodMedia(m: Media) { Word(m.stype) && Word(m.port) && Word(m.transport) && Words(m.formats) }

  predicate GoodOrigin(o: Origin) {
    Word(o.username) && Word(o.sessionId) && -INT64 <= o.version < INT64 && Word(o.netType) && Word(o.addrType) &&
    Word(o.addr)
  }

  lemma ConnRoundTrip(c: Conn)
    requires GoodConn(c)
    ensures ParseConn(ConnString(c)) == Some(c)
  {
    FieldsOfJoin([c.ntype, c.atype, c.addr]);
  }

  lemma MediaRoundTrip(m: Media)
    requires GoodMedia(m)
    ensures ParseMedia(MediaString(m)) == Some(m)
  {
    var w := [m.stype, m.port, m.transport] + m.formats;
    assert w[3..] == m.formats;
    FieldsOfJoin(w);
  }

  lemma OriginRoundTrip(o: Origin)
    requires GoodOrigin(o)
    ensures ParseOrigin(OriginString(o)) == Some(o)
  {
    ParseOfFormat(o.version);
    FieldsOfJoin([o.username, o.sessionId, FormatInt(o.version), o.netType, o.addrType, o.addr]);
  }

  // ---------------------------------------------------------------- parsing lines

  /** While parsing: `conn` is the session's c= line. */
  datatype State = State(head: Head, conn: Option<Conn>, sections: seq<Section>)

  const START: State := State(Head(map[], None, []), None, [])

  function LetterOf(name: string): char { if |name| == 1 then name[0] else '?' }

  function AddHeader(s: Section, name: char, v: string): Section {
    match name
    case 'a' => s.(attrs := s.attrs + [v])
    case 'm' => s.(m := ParseMedia(v))
    case 'i' => s.(i := Some(v))
    case 'c' => s.(c := ParseConn(v))
    case 'b' => s.(b := Some(v))
    case 'k' => s.(k := Some(v))
    case _ => s
  }

  /** A line of the session part; only the origin can be refused. */
  function AddSession(st: State, name: char, v: string): Result<State> {
    if name == 'c' then Ok(st.(conn := ParseConn(v)))
    else if name == 'a' then Ok(st.(head := st.head.(attrs := st.head.attrs + [v])))
    else if name == 'o' then
      var o := ParseOrigin(v);
      if o.None? then Err(MalformedOrigin) else Ok(st.(head := st.head.(origin := o)))
    else if name in FIRST || name in SECOND then Ok(st.(head := st.head.(generic := st.head.generic[name := v])))
    else Ok(st)
  }

  function AddLine(st: State, l: Line): Result<State> {
    var name := LetterOf(l.name);
    if name == 'm' then Ok(st.(sections := st.sections + [AddHeader(NEW_SECTION, name, l.value)]))
    else if st.sections == [] then AddSession(st, name, l.value)
    else
      var last := |st.sections| - 1;
      Ok(st.(sections := st.sections[last := AddHeader(st.sections[last], name, l.value)]))
  }

  function AddLines(st: State, ls: seq<Line>): Result<State>
    decreases |ls|
  {
    if ls == [] then Ok(st)
    else
      var r := AddLine(st, ls[0]);
      if r.Err? then r else AddLines(r.value, ls[1..])
  }

  /** A section without a connection line of its own has the session's (section 5.7 of RFC 4566). */
  function Inherit(sections: seq<Section>, c: Option<Conn>): (r: seq<Section>)
    ensures |r| == |sections|
  {
    if sections == [] then []
    else [if sections[0].c.None? then sections[0].(c := c) else sections[0]] + Inherit(sections[1..], c)
  }

  function SectionError(sections: seq<Section>): Option<Error> {
    if sections == [] then None
    else if sections[0].m.None? then Some(Missing('m'))
    else if sections[0].c.None? then Some(Missing('c'))
    else SectionError(sections[1..])
  }

  function Check(b: Sdp): Option<Error> {
    if 'v' !in b.head.generic then Some(Missing('v'))
    else if b.head.origin.None? then Some(Missing('o'))
    else if 's' !in b.head.generic then Some(Missing('s'))
    else if 't' !in b.head.generic then Some(Missing('t'))
    else SectionError(b.sections)
  }

  function Resolve(st: State): Sdp {
    Sdp(st.head, if st.sections == [] then st.conn else None, Inherit(st.sections, st.conn))
  }

  function Finish(st: State): Result<Sdp> {
    var b := Resolve(st);
    var e := Check(b);
    if e.Some? then Err(e.value) else Ok(b)
  }

  function Build(ls: seq<Line>): Result<Sdp> {
    var r := AddLines(START, ls);
    if r.Err? then Err(r.error) else Finish(r.value)
  }

  /** `ParseSdpBody`. */
  function Parse(text: string): Result<Sdp> { Build(Lines(text)) }

  // ---------------------------------------------------------------- printing lines

  function HeadLines(letters: seq<char>, h: Head): seq<Line> {
    if letters == [] then []
    else HeadLine(letters[0], h) + HeadLines(letters[1..], h)
  }

  function HeadLine(letter: char, h: Head): seq<Line> {
    if letter == 'o' then if h.origin.Some? then [Line("o", OriginString(h.origin.value))] else []
    else if letter in h.generic then [Line([letter], h.generic[letter])]
    else []
  }

  function AttrLines(attrs: seq<string>): seq<Line> {
    if attrs == [] then [] else [Line("a", attrs[0])] + AttrLines(attrs[1..])
  }

  function TextLine(letter: char, v: Option<string>): seq<Line> { if v.Some? then [Line([letter], v.value)] else [] }

  function ConnLine(c: Option<Conn>): seq<Line> { if c.Some? then [Line("c", ConnString(c.value))] else [] }

  function MediaLine(m: Option<Media>): seq<Line> { if m.Some? then [Line("m", MediaString(m.value))] else [] }

  function SectionLines(s: Section, noC: bool): seq<Line> {
    MediaLine(s.m) + TextLine('i', s.i) + (if noC then [] else ConnLine(s.c)) + TextLine('b', s.b) +
    TextLine('k', s.k) + AttrLines(s.attrs)
  }

  /** The connection line that is printed once for all sections that have it: the only section's, or the
      one the first two sections share. */
  function Hoisted(b: Sdp): Option<Conn> {
    if |b.sections| == 1 && b.sections[0].c.Some? then b.sections[0].c
    else if |b.sections| > 1 && b.conn.None? && b.sections[0].c.Some? && b.sections[1].c.Some? &&
      ConnString(b.sections[0].c.value) == ConnString(b.sections[1].c.value) then b.sections[0].c
    else None
  }

  predicate LeavesOut(s: Section, top: Option<Conn>) {
    top.Some? && s.c.Some? && ConnString(s.c.value) == ConnString(top.value)
  }

  function AllSectionLines(sections: seq<Section>, top: Option<Conn>): seq<Line> {
    if sections == [] then []
    else SectionLines(sections[0], LeavesOut(sections[0], top)) + AllSectionLines(sections[1..], top)
  }

  function TopConn(b: Sdp): Option<Conn> { if Hoisted(b).Some? then Hoisted(b) else b.conn }

  function Emit(b: Sdp): seq<Line> {
    HeadLines(FIRST, b.head) + ConnLine(TopConn(b)) + HeadLines(SECOND, b.head) + AttrLines(b.head.attrs) +
    AllSectionLines(b.sections, Hoisted(b))
  }

  /** `String`. */
  function Printed(b: Sdp): string { Print(Emit(b)) }
}
