/** Splitting a header field that lists addresses at its commas, but not at those inside angle brackets
    or quotes. */
module AddressLists {

  /** Opening and closing brackets and quotes seen so far. */
  datatype Count = Count(open: nat, close: nat, quotes: nat)

  const ZERO: Count := Count(0, 0, 0)

  function Plus(c: Count, r: char): Count {
    match r
    case '<' => c.(open := c.open + 1)
    case '>' => c.(close := c.close + 1)
    case '"' => c.(quotes := c.quotes + 1)
    case _ => c
  }

  function Counted(s: string): Count {
    if s == "" then ZERO else Plus(Counted(s[..|s| - 1]), s[|s| - 1])
  }

  predicate Balanced(c: Count) { c == ZERO || (c.open > 0 && c.open == c.close && c.quotes % 2 == 0) }

  /** A comma at which the text is cut. */
  predicate Cuts(s: string, i: nat)
    requires i < |s|
  {
    s[i] == ',' && Balanced(Counted(s[..i]))
  }

  /** One pass with running counters: `i` characters of the current piece have been read. */
  function OnePass(s: string, i: nat, c: Count): (pieces: seq<string>)
    requires i <= |s|
    decreases |s|, |s| - i
  {
    if i == |s| then if s == "" then [] else [s]
    else if s[i] == ',' && Balanced(c) then [s[..i]] + OnePass(s[i + 1..], 0, ZERO)
    else OnePass(s, i + 1, Plus(c, s[i]))
  }

  function Split(s: string): seq<string> { OnePass(s, 0, ZERO) }

  function Joined(pieces: seq<string>): string {
    if pieces == [] then "" else if |pieces| == 1 then pieces[0] else pieces[0] + "," + Joined(pieces[1..])
  }

  predicate NoCut(s: string, n: nat)
    requires n <= |s|
  {
    forall j :: 0 <= j < n ==> !Cuts(s, j)
  }

  lemma CountedNext(s: string, i: nat)
    requires i < |s|
    ensures Counted(s[..i + 1]) == Plus(Counted(s[..i]), s[i])
  {
    assert s[..i + 1][..i] == s[..i];
  }

  lemma {:induction false} CountedIs(s: string)
    ensures Counted(s) == Count(multiset(s)['<'], multiset(s)['>'], multiset(s)['"'])
  {
    if s != "" {
      CountedIs(s[..|s| - 1]);
      assert s == s[..|s| - 1] + [s[|s| - 1]];
    }
  }

  /** A comma cuts exactly if there is no bracket or quote before it, or as many closing as opening
      brackets, of which there is one, and an even number of quotes. */
  lemma CutsExactly(s: string, i: nat)
    requires i < |s|
    ensures var m := multiset(s[..i]);
            Cuts(s, i) <==>
              s[i] == ',' && ((m['<'] == 0 && m['>'] == 0 && m['"'] == 0) || (m['<'] > 0 && m['<'] == m['>'] && m['"'] % 2 == 0))
  {
    CountedIs(s[..i]);
  }

  /** Up to the first cut the pass only counts. */
  lemma {:induction false} PassesOver(s: string, i: nat, n: nat)
    requires i <= n <= |s| && forall j :: i <= j < n ==> !Cuts(s, j)
    ensures OnePass(s, i, Counted(s[..i])) == OnePass(s, n, Counted(s[..n]))
    decreases n - i
  {
    if i < n {
      CountedNext(s, i);
      assert !Cuts(s, i);
      PassesOver(s, i + 1, n);
    }
  }

  lemma SplitAt(s: string, i: nat)
    requires i < |s| && NoCut(s, i) && Cuts(s, i)
    ensures Split(s) == [s[..i]] + Split(s[i + 1..])
  {
    assert s[..0] == "";
    PassesOver(s, 0, i);
  }

  lemma SplitWhole(s: string)
    requires NoCut(s, |s|)
    ensures Split(s) == if s == "" then [] else [s]
  {
    assert s[..0] == "";
    PassesOver(s, 0, |s|);
  }

  /** The first cut, or the length. */
  function FirstCut(s: string, i: nat): (n: nat)
    requires i <= |s| && NoCut(s, i)
    ensures n <= |s| && NoCut(s, n) && (n < |s| ==> Cuts(s, n))
    decreases |s| - i
  {
    if i == |s| || Cuts(s, i) then i else FirstCut(s, i + 1)
  }

  /** The pieces joined with commas are the text, but for one comma at the end. */
  lemma {:induction false} JoinGivesBack(s: string)
    ensures Joined(Split(s)) == s || Joined(Split(s)) + "," == s
    ensures Split(s) == [] <==> s == ""
    decreases |s|
  {
    var n := FirstCut(s, 0);
    if n == |s| {
      SplitWhole(s);
    } else {
      SplitAt(s, n);
      JoinGivesBack(s[n + 1..]);
      assert s == s[..n] + "," + s[n + 1..];
      var rest := Split(s[n + 1..]);
      assert ([s[..n]] + rest)[1..] == rest;
    }
  }

  /** A piece is cut off at the first comma where brackets and quotes balance, and nowhere earlier. */
  predicate Piece(p: string, last: bool) { NoCut(p, |p|) && (last || Balanced(Counted(p))) }

  lemma {:induction false} PiecesAreCutRight(s: string)
    ensures forall k :: 0 <= k < |Split(s)| ==> Piece(Split(s)[k], k == |Split(s)| - 1)
    decreases |s|
  {
    var n := FirstCut(s, 0);
    if n == |s| {
      SplitWhole(s);
    } else {
      SplitAt(s, n);
      PiecesAreCutRight(s[n + 1..]);
      var p, rest := s[..n], Split(s[n + 1..]);
      forall j | 0 <= j < |p| ensures !Cuts(p, j) {
        assert !Cuts(s, j) && p[..j] == s[..j];
      }
    }
  }

  /** These two properties leave no choice: whatever list has them, and joins to the text, is the split. */
  lemma {:induction false} SplitIsUnique(pieces: seq<string>, s: string)
    requires forall k :: 0 <= k < |pieces| ==> Piece(pieces[k], k == |pieces| - 1)
    requires s == Joined(pieces) && pieces != [] && pieces[|pieces| - 1] != ""
    ensures pieces == Split(s)
    decreases |pieces|
  {
    var p := pieces[0];
    assert Piece(p, 0 == |pieces| - 1);
    if |pieces| == 1 {
      SplitWhole(s);
    } else {
      var rest := pieces[1..];
      assert forall k :: 0 <= k < |rest| ==> rest[k] == pieces[k + 1];
      SplitIsUnique(rest, Joined(rest));
      assert s[..|p|] == p && s[|p|] == ',' && s[|p| + 1..] == Joined(rest);
      forall j | 0 <= j < |p| ensures !Cuts(s, j) {
        assert !Cuts(p, j) && p[..j] == s[..j];
      }
      SplitAt(s, |p|);
    }
  }

  // ---------------------------------------------------------------- the splitter

  /** `strings.IndexByte(s[from:], ',')`, from the start of `s`. */
  method IndexComma(s: string, from: nat) returns (idx: int)
    requires from <= |s|
    ensures idx == -1 ==> forall j :: from <= j < |s| ==> s[j] != ','
    ensures idx != -1 ==> from <= idx < |s| && s[idx] == ',' && forall j :: from <= j < idx ==> s[j] != ','
  {
    for i := from to |s|
      invariant forall j :: from <= j < i ==> s[j] != ','
    {
      if s[i] == ',' { return i; }
    }
    idx := -1;
  }

  method CountDelimiters(s: string) returns (onum: nat, cnum: nat, qnum: nat)
    ensures Counted(s) == Count(onum, cnum, qnum)
  {
    onum, cnum, qnum := 0, 0, 0;
    for i := 0 to |s|
      invariant Counted(s[..i]) == Count(onum, cnum, qnum)
    {
      CountedNext(s, i);
      if s[i] == '<' {
        onum := onum + 1;
      } else if s[i] == '>' {
        cnum := cnum + 1;
      } else if s[i] == '"' {
        qnum := qnum + 1;
      }
    }
    assert s[..|s|] == s;
  }

  /** `CreateSipAddressHFs`: counts again from the start of the piece at every comma. */
  method CreateSipAddressHFs(text: string) returns (addresses: seq<string>)
    ensures addresses == Split(text)
  {
    addresses := [];
    var body, pidx := text, 0;
    while true
      invariant pidx <= |body| && NoCut(body, pidx) && addresses + Split(body) == Split(text)
      decreases |body|, |body| - pidx
    {
      var idx := IndexComma(body, pidx);
      if idx == -1 { break; }
      var onum, cnum, qnum := CountDelimiters(body[..idx]);
      if (onum == 0 && cnum == 0 && qnum == 0) || (onum > 0 && onum == cnum && qnum % 2 == 0) {
        SplitAt(body, idx);
        addresses := addresses + [body[..idx]];
        body := body[idx + 1..];
        pidx := 0;
      } else {
        pidx := idx + 1;
      }
    }
    SplitWhole(body);
    if body != "" {
      addresses := addresses + [body];
    }
  }
}
