/** The string functions of Go's library that the SDP parser and printer use, on sequences of code
    points. */
module Text {
  import opened Messages

  /** `unicode.IsSpace`. */
  predicate IsSpace(c: char) {
    '\t' <= c <= '\r' || c == ' ' || c == '\U{85}' || c == '\U{A0}' || c == '\U{1680}' || '\U{2000}' <= c <= '\U{200A}' ||
    c == '\U{2028}' || c == '\U{2029}' || c == '\U{202F}' || c == '\U{205F}' || c == '\U{3000}'
  }

  /** The kinds of separators the parser uses. */
  datatype Sep = Space | Newline | Equals

  predicate Separates(sep: Sep, c: char) {
    match sep
    case Space => IsSpace(c)
    case Newline => c == '\n' || c == '\r'
    case Equals => c == '='
  }

  /** `unicode.ToLower`, as far as the result is an ASCII letter: two code points beyond ASCII have one. */
  function LowerChar(c: char): char {
    if 'A' <= c <= 'Z' then (c as int + 32) as char
    else if c == '\U{0130}' then 'i'
    else if c == '\U{212A}' then 'k'
    else c
  }

  function ToLower(s: string): (r: string)
    ensures |r| == |s|
  {
    seq(|s|, i requires 0 <= i < |s| => LowerChar(s[i]))
  }

  function TrimLeft(s: string): (r: string)
    ensures |r| <= |s| && r == s[|s| - |r|..] && (r != "" ==> !IsSpace(r[0]))
  {
    if s != "" && IsSpace(s[0]) then TrimLeft(s[1..]) else s
  }

  function TrimRight(s: string): (r: string)
    ensures |r| <= |s| && r == s[..|r|] && (r != "" ==> !IsSpace(r[|r| - 1]))
  {
    if s != "" && IsSpace(s[|s| - 1]) then TrimRight(s[..|s| - 1]) else s
  }

  function TrimSpace(s: string): (r: string)
    ensures r != "" ==> !IsSpace(r[|r| - 1])
  {
    TrimRight(TrimLeft(s))
  }

  predicate AllSpace(s: string) { forall k :: 0 <= k < |s| ==> IsSpace(s[k]) }

  lemma {:induction false} TrimsLeft(s: string)
    ensures AllSpace(s[..|s| - |TrimLeft(s)|])
  {
    if s != "" && IsSpace(s[0]) {
      TrimsLeft(s[1..]);
      var n := |s| - |TrimLeft(s)|;
      assert s[..n] == [s[0]] + s[1..][..n - 1];
    }
    hide IsSpace;
  }

  lemma {:induction false} TrimsRight(s: string)
    ensures AllSpace(s[|TrimRight(s)|..])
  {
    if s != "" && IsSpace(s[|s| - 1]) {
      TrimsRight(s[..|s| - 1]);
      var n := |TrimRight(s)|;
      assert s[n..] == s[..|s| - 1][n..] + [s[|s| - 1]];
    }
    hide IsSpace;
  }

  /** Trimming takes all blanks from both ends, and nothing else. */
  lemma TrimsExactly(s: string) returns (a: string, b: string)
    ensures s == a + TrimSpace(s) + b && AllSpace(a) && AllSpace(b)
    ensures TrimSpace(s) != "" ==> !IsSpace(TrimSpace(s)[0]) && !IsSpace(TrimSpace(s)[|TrimSpace(s)| - 1])
  {
    hide IsSpace, AllSpace, TrimLeft, TrimRight;
    var l := TrimLeft(s);
    var n := |s| - |l|;
    TrimsLeft(s);
    TrimsRight(l);
    a, b := s[..n], l[|TrimRight(l)|..];
    ThreeParts(s, n, |TrimRight(l)|);
  }

  lemma ThreeParts(s: string, n: nat, m: nat)
    requires n <= |s| && m <= |s| - n
    ensures s == s[..n] + s[n..][..m] + s[n..][m..]
    ensures m > 0 ==> s[n..][..m][0] == s[n..][0]
  {
  }

  /** The length of the run of characters at the start that do not separate. */
  function Run(s: string, sep: Sep): (n: nat)
    ensures n <= |s| && (forall k :: 0 <= k < n ==> !Separates(sep, s[k])) && (n < |s| ==> Separates(sep, s[n]))
  {
    if s == "" || Separates(sep, s[0]) then 0 else 1 + Run(s[1..], sep)
  }

  /** `strings.FieldsFunc`. */
  function FieldsFunc(s: string, sep: Sep): (fields: seq<string>)
    decreases |s|
  {
    if s == "" then []
    else if Separates(sep, s[0]) then FieldsFunc(s[1..], sep)
    else [s[..Run(s, sep)]] + FieldsFunc(s[Run(s, sep)..], sep)
  }

  predicate Without(s: string, sep: Sep) { forall k :: 0 <= k < |s| ==> !Separates(sep, s[k]) }

  /** `strings.Fields`. */
  function Fields(s: string): seq<string> { FieldsFunc(s, Space) }

  predicate Pieces(fields: seq<string>, sep: Sep) {
    forall k :: 0 <= k < |fields| ==> fields[k] != "" && Without(fields[k], sep)
  }

  lemma {:induction false} FieldsAreWithout(s: string, sep: Sep)
    ensures Pieces(FieldsFunc(s, sep), sep)
    decreases |s|
  {
    if s != "" {
      if Separates(sep, s[0]) {
        FieldsAreWithout(s[1..], sep);
      } else {
        FieldsAreWithout(s[Run(s, sep)..], sep);
      }
    }
  }

  predicate Word(s: string) { s != "" && Without(s, Space) }

  lemma {:induction false} RunIs(s: string, sep: Sep, n: nat)
    requires n <= |s| && (forall k :: 0 <= k < n ==> !Separates(sep, s[k])) && (n < |s| ==> Separates(sep, s[n]))
    ensures Run(s, sep) == n
  {
  }

  /** A field and what follows it. */
  lemma FirstField(f: string, rest: string, sep: Sep)
    requires f != "" && Without(f, sep) && (rest == "" || Separates(sep, rest[0]))
    ensures FieldsFunc(f + rest, sep) == [f] + FieldsFunc(rest, sep)
  {
    var s := f + rest;
    RunIs(s, sep, |f|);
    assert s[..|f|] == f && s[|f|..] == rest;
  }

  function Join(words: seq<string>): string {
    if words == [] then "" else if |words| == 1 then words[0] else words[0] + " " + Join(words[1..])
  }

  predicate Words(words: seq<string>) { forall k :: 0 <= k < |words| ==> Word(words[k]) }

  /** Words joined by blanks are found again. */
  lemma {:induction false} FieldsOfJoin(words: seq<string>)
    requires Words(words)
    ensures Fields(Join(words)) == words
  {
    if words == [] {
    } else if |words| == 1 {
      FirstField(words[0], "", Space);
      assert words[0] + "" == words[0];
    } else {
      var rest := Join(words[1..]);
      FieldsOfJoin(words[1..]);
      FirstField(words[0], " " + rest, Space);
      assert words[0] + (" " + rest) == words[0] + " " + rest;
      assert (" " + rest)[1..] == rest;
    }
  }

  // ---------------------------------------------------------------- numbers

  predicate IsDigit(c: char) { '0' <= c <= '9' }

  function DigitChar(d: nat): (c: char)
    requires d < 10
    ensures IsDigit(c) && DigitValue(c) == d
  {
    ('0' as int + d) as char
  }

  function Decimal(n: nat): (s: string)
    ensures s != "" && Digits(s)
  {
    (if n < 10 then "" else Decimal(n / 10)) + [DigitChar(n % 10)]
  }

  predicate Digits(s: string) { forall k :: 0 <= k < |s| ==> IsDigit(s[k]) }

  function DigitValue(c: char): nat
    requires IsDigit(c)
  {
    c as int - '0' as int
  }

  function ValueOf(s: string): nat
    requires Digits(s)
  {
    if s == "" then 0 else 10 * ValueOf(s[..|s| - 1]) + DigitValue(s[|s| - 1])
  }

  const INT64: int := 0x8000_0000_0000_0000

  /** `strconv.FormatInt(n, 10)`. */
  function FormatInt(n: int): string { if n < 0 then "-" + Decimal(-n) else Decimal(n) }

  function Signed(s: string): bool { s != "" && (s[0] == '-' || s[0] == '+') }

  /** `strconv.ParseInt(s, 10, 64)`. */
  function ParseInt(s: string): (n: Option<int>)
    ensures n.Some? ==> -INT64 <= n.value < INT64
  {
    var digits := if Signed(s) then s[1..] else s;
    if digits == "" || !Digits(digits) then None
    else
      var n: int := if s[0] == '-' then 0 - ValueOf(digits) else ValueOf(digits);
      if -INT64 <= n < INT64 then Some(n) else None
  }

  lemma {:induction false} ValueOfDecimal(n: nat)
    ensures ValueOf(Decimal(n)) == n
  {
    var s := Decimal(n);
    if n >= 10 {
      ValueOfDecimal(n / 10);
      assert s[..|s| - 1] == Decimal(n / 10);
    } else {
      assert s[..|s| - 1] == "";
    }
  }

  lemma ParseOfFormat(n: int)
    requires -9223372036854775808 <= n <= 9223372036854775807
    ensures ParseInt(FormatInt(n)) == Some(n) && Word(FormatInt(n))
  {
    var d := Decimal(if n < 0 then -n else n);
    ValueOfDecimal(if n < 0 then -n else n);
    assert n < 0 ==> ("-" + d)[1..] == d;
    assert IsDigit(d[0]);
    DigitsMakeWords(d);
  }

  /** A number may be written with a sign, and has to fit 64 bits. */
  lemma SignedNumbers(n: nat)
    ensures ParseInt("+" + Decimal(n)) == (if n <= 9223372036854775807 then Some(n) else None)
    ensures var m: int := 0 - n; ParseInt("-" + Decimal(n)) == (if m >= -9223372036854775808 then Some(m) else None)
  {
    var d := Decimal(n);
    ValueOfDecimal(n);
    hide Decimal, ValueOf, Digits;
    assert ("+" + d)[1..] == d && ("-" + d)[1..] == d;
    assert Signed("+" + d) && Signed("-" + d);
  }

  lemma DigitsMakeWords(d: string)
    requires d != "" && Digits(d)
    ensures Word(d) && Word("-" + d)
  {
    forall k | 0 <= k < |d| ensures !IsSpace(d[k]) {
      assert IsDigit(d[k]);
    }
  }

  // ---------------------------------------------------------------- lines of the form name=value

  datatype Line = Line(name: string, value: string)

  /** `strings.SplitN(line, "=", 2)`. */
  function SplitLine(s: string): (l: Option<Line>)
    ensures l.Some? <==> '=' in s
    ensures l.Some? ==> s == l.value.name + "=" + l.value.value && '=' !in l.value.name
  {
    var n := Run(s, Equals);
    if n == |s| then None else Some(Line(s[..n], s[n + 1..]))
  }

  /** A text line by line: trimmed, split, with lower-case names; blank lines and lines without an equals
      sign are passed over. */
  function LinesOf(raw: seq<string>): (ls: seq<Line>)
  {
    if raw == [] then []
    else
      var l := SplitLine(TrimSpace(raw[0]));
      var rest := LinesOf(raw[1..]);
      if l.None? then rest else [Line(ToLower(l.value.name), l.value.value)] + rest
  }

  /** A name may be written with capitals. */
  lemma CapitalsRead(letter: char, v: string)
    requires 'a' <= letter <= 'z' && Clean(v)
    ensures LinesOf([[(letter as int - 'a' as int + 'A' as int) as char] + "=" + v]) == [Line([letter], v)]
  {
    var capital := (letter as int - 'a' as int + 'A' as int) as char;
    var s := [capital] + "=" + v;
    assert !IsSpace(s[0]) && !IsSpace(s[|s| - 1]);
    assert LowerChar(capital) == letter;
    hide IsSpace, LowerChar;
    TrimsNothing(s);
    RunIs(s, Equals, 1);
    assert s[..1] == [capital] && s[2..] == v;
    assert SplitLine(s) == Some(Line([capital], v));
    hide SplitLine, TrimSpace;
    assert ToLower([capital]) == [letter];
    LinesOfStep([s]);
    assert LinesOf([s][1..]) == [];
  }

  lemma TrimsNothing(s: string)
    requires s != "" && !IsSpace(s[0]) && !IsSpace(s[|s| - 1])
    ensures TrimSpace(s) == s
  {
    hide IsSpace;
  }

  function Lines(text: string): (ls: seq<Line>) {
    LinesOf(FieldsFunc(TrimSpace(text), Newline))
  }

  /** A value a line can carry unchanged. */
  predicate Clean(v: string) { Without(v, Newline) && (v != "" ==> !IsSpace(v[|v| - 1])) }

  /** A name the parser knows. */
  predicate Letter(name: string) { |name| == 1 && 'a' <= name[0] <= 'z' }

  function PrintLine(l: Line): string { l.name + "=" + l.value + "\r\n" }

  function Print(ls: seq<Line>): string { if ls == [] then "" else PrintLine(ls[0]) + Print(ls[1..]) }

  lemma TrimKeeps(s: string)
    requires Without(s, Newline)
    ensures Without(TrimSpace(s), Newline)
  {
    var l := TrimLeft(s);
    assert forall k :: 0 <= k < |l| ==> l[k] == s[|s| - |l| + k];
    assert forall k :: 0 <= k < |TrimRight(l)| ==> TrimRight(l)[k] == l[k];
  }

  /** Whatever the text, its lines carry values that can be printed. */
  lemma SplitIsClean(t: string)
    requires Without(t, Newline) && (t != "" ==> !IsSpace(t[|t| - 1]))
    ensures SplitLine(t).Some? ==> Clean(SplitLine(t).value.value)
  {
    var l := SplitLine(t);
    hide SplitLine, IsSpace;
    if l.Some? {
      var v := l.value.value;
      assert forall k :: 0 <= k < |v| ==> v[k] == t[|t| - |v| + k];
    }
  }

  lemma LinesOfStep(raw: seq<string>)
    requires raw != []
    ensures var l := SplitLine(TrimSpace(raw[0]));
            LinesOf(raw) == (if l.None? then [] else [Line(ToLower(l.value.name), l.value.value)]) + LinesOf(raw[1..])
  {
    hide TrimSpace, SplitLine, ToLower;
    var rest := LinesOf(raw[1..]);
    assert [] + rest == rest;
  }

  lemma {:induction false} LinesAreClean(raw: seq<string>)
    requires Pieces(raw, Newline)
    ensures AllClean(LinesOf(raw))
  {
    hide TrimSpace, SplitLine, Clean, ToLower, Without, IsSpace;
    if raw != [] {
      LinesAreClean(raw[1..]);
      TrimKeeps(raw[0]);
      SplitIsClean(TrimSpace(raw[0]));
      LinesOfStep(raw);
    }
  }

  predicate AllClean(ls: seq<Line>) { forall k :: 0 <= k < |ls| ==> Clean(ls[k].value) }

  lemma ParsedLinesAreClean(text: string)
    ensures AllClean(Lines(text))
  {
    FieldsAreWithout(TrimSpace(text), Newline);
    LinesAreClean(FieldsFunc(TrimSpace(text), Newline));
  }

  // ---------------------------------------------------------------- printed lines are found again

  function Bare(l: Line): string { l.name + "=" + l.value }

  function Bares(ls: seq<Line>): seq<string> { if ls == [] then [] else [Bare(ls[0])] + Bares(ls[1..]) }

  /** The printed lines but for the last line end. */
  function Body(ls: seq<Line>): string
    requires ls != []
  {
    if |ls| == 1 then Bare(ls[0]) else Bare(ls[0]) + "\r\n" + Body(ls[1..])
  }

  lemma {:induction false} PrintIsBody(ls: seq<Line>)
    requires ls != []
    ensures Print(ls) == Body(ls) + "\r\n"
  {
    if |ls| == 1 {
      assert Print(ls[1..]) == "";
    } else {
      PrintIsBody(ls[1..]);
    }
  }

  predicate PrintableLine(l: Line) { Letter(l.name) && Clean(l.value) }

  predicate AllPrintable(ls: seq<Line>) { forall k :: 0 <= k < |ls| ==> PrintableLine(ls[k]) }

  lemma BareLine(l: Line)
    requires PrintableLine(l)
    ensures var b := Bare(l);
            b != "" && Without(b, Newline) && !IsSpace(b[0]) && !IsSpace(b[|b| - 1]) && TrimSpace(b) == b &&
            SplitLine(b) == Some(l) && ToLower(l.name) == l.name
  {
    var b := Bare(l);
    assert b[0] == l.name[0] && b[1] == '=';
    assert forall k :: 2 <= k < |b| ==> b[k] == l.value[k - 2];
    RunIs(b, Equals, 1);
    assert b[..1] == l.name && b[2..] == l.value;
  }

  lemma {:induction false} BodyEnds(ls: seq<Line>)
    requires ls != [] && AllPrintable(ls)
    ensures var b := Body(ls); b != "" && !IsSpace(b[0]) && !IsSpace(b[|b| - 1])
  {
    BareLine(ls[0]);
    if |ls| > 1 { BodyEnds(ls[1..]); }
  }

  lemma SkipLineEnd(rest: string)
    ensures FieldsFunc("\r\n" + rest, Newline) == FieldsFunc(rest, Newline)
  {
    assert ("\r\n" + rest)[1..] == "\n" + rest && ("\n" + rest)[1..] == rest;
  }

  lemma {:induction false} FieldsOfBody(ls: seq<Line>)
    requires ls != [] && AllPrintable(ls)
    ensures FieldsFunc(Body(ls), Newline) == Bares(ls)
  {
    hide Without, TrimSpace, SplitLine, ToLower, PrintableLine, IsSpace, Bare, FieldsFunc;
    var b := Bare(ls[0]);
    BareLine(ls[0]);
    if |ls| == 1 {
      FirstField(b, "", Newline);
      NoFields();
      assert b + "" == b;
      assert Bares(ls[1..]) == [];
    } else {
      var rest := Body(ls[1..]);
      FieldsOfBody(ls[1..]);
      FirstField(b, "\r\n" + rest, Newline);
      assert b + ("\r\n" + rest) == Body(ls);
      SkipLineEnd(rest);
    }
  }

  lemma NoFields()
    ensures FieldsFunc("", Newline) == []
  {
  }

  lemma NoLines()
    ensures LinesOf([]) == []
  {
  }

  lemma {:induction false} LinesOfBares(ls: seq<Line>)
    requires AllPrintable(ls)
    ensures LinesOf(Bares(ls)) == ls
  {
    hide Bare, Without, TrimSpace, SplitLine, ToLower, PrintableLine, LinesOf;
    if ls == [] {
      NoLines();
    } else {
      BareLine(ls[0]);
      LinesOfBares(ls[1..]);
      assert Bares(ls)[1..] == Bares(ls[1..]);
      LinesOfStep(Bares(ls));
    }
  }

  lemma TrimLineEnd(b: string)
    requires b != "" && !IsSpace(b[0]) && !IsSpace(b[|b| - 1])
    ensures TrimSpace(b + "\r\n") == b
  {
    var s := b + "\r\n";
    assert s[0] == b[0];
    assert TrimLeft(s) == s;
    assert s[..|s| - 1] == b + "\r" && (b + "\r")[..|b|] == b;
    assert TrimRight(s) == TrimRight(b + "\r") == TrimRight(b) == b;
  }

  /** Printing lines and reading them again gives the same lines. */
  lemma LinesOfPrint(ls: seq<Line>)
    requires AllPrintable(ls)
    ensures Lines(Print(ls)) == ls
  {
    hide IsSpace, Print, Body, Bares, TrimSpace, FieldsFunc, LinesOf, AllPrintable;
    if ls == [] {
      NoText();
    } else {
      PrintIsBody(ls);
      BodyEnds(ls);
      TrimLineEnd(Body(ls));
      FieldsOfBody(ls);
      LinesOfBares(ls);
    }
  }

  lemma NoText()
    ensures Lines("") == [] && Print([]) == ""
  {
    assert TrimSpace("") == "";
  }
}
