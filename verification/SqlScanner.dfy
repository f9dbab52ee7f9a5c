/** Cutting SQL text into statements at semicolons outside quotes, backticks and escapes. */
module SqlScanner {

  datatype Quote = Plain | Single | Double | Backtick

  datatype Mode = Mode(quote: Quote, escaped: bool)

  const START := Mode(Plain, false)

  predicate IsSpace(c: char) {
    c == ' ' || c == '\t' || c == '\n' || c == '\r' || c == 11 as char || c == 12 as char
  }

  function NextMode(m: Mode, c: char): Mode {
    if m.escaped then m.(escaped := false)
    else if c == '\\' then m.(escaped := true)
    else if c == '\'' && (m.quote.Plain? || m.quote.Single?) then m.(quote := if m.quote.Single? then Plain else Single)
    else if c == '"' && (m.quote.Plain? || m.quote.Double?) then m.(quote := if m.quote.Double? then Plain else Double)
    else if c == '`' && (m.quote.Plain? || m.quote.Backtick?) then
      m.(quote := if m.quote.Backtick? then Plain else Backtick)
    else m
  }

  /** The scanner after some text: pieces finished, the piece being built, and the mode. */
  datatype Cut = Cut(done: seq<string>, current: string, mode: Mode)

  function Feed(c: Cut, ch: char): Cut {
    if ch == ';' && c.mode == START then Cut(c.done + [c.current], "", c.mode)
    else Cut(c.done, c.current + [ch], NextMode(c.mode, ch))
  }

  function Run(c: Cut, s: string): Cut
    decreases |s|
  {
    if s == "" then c else Feed(Run(c, s[..|s| - 1]), s[|s| - 1])
  }

  function CutOf(s: string): Cut { Run(Cut([], "", START), s) }

  function Pieces(s: string): seq<string> { CutOf(s).done + [CutOf(s).current] }

  // ---------------------------------------------------------------- trimming

  function TrimLeft(s: string): string { if s != "" && IsSpace(s[0]) then TrimLeft(s[1..]) else s }

  function TrimRight(s: string): string
    decreases |s|
  {
    if s != "" && IsSpace(s[|s| - 1]) then TrimRight(s[..|s| - 1]) else s
  }

  function Trim(s: string): string { TrimRight(TrimLeft(s)) }

  lemma {:induction false} TrimRightPrefix(s: string)
    ensures TrimRight(s) <= s
    ensures TrimRight(s) == "" || !IsSpace(TrimRight(s)[|TrimRight(s)| - 1])
    decreases |s|
  {
    if s != "" && IsSpace(s[|s| - 1]) { TrimRightPrefix(s[..|s| - 1]); }
  }

  lemma {:induction false} TrimLeftSuffix(s: string)
    ensures |TrimLeft(s)| <= |s| && TrimLeft(s) == s[|s| - |TrimLeft(s)|..]
    ensures TrimLeft(s) == "" || !IsSpace(TrimLeft(s)[0])
  {
    if s != "" && IsSpace(s[0]) { TrimLeftSuffix(s[1..]); }
  }

  /** A trimmed text has no space at either end, and trimming it again changes nothing. */
  lemma {:induction false} TrimTwice(s: string)
    ensures Trim(Trim(s)) == Trim(s)
    ensures Trim(s) == "" || (!IsSpace(Trim(s)[0]) && !IsSpace(Trim(s)[|Trim(s)| - 1]))
  {
    TrimLeftSuffix(s);
    TrimRightPrefix(TrimLeft(s));
    var t := Trim(s);
    assert t == "" || t[0] == TrimLeft(s)[0];
  }

  /** The statements: pieces trimmed, empty ones left out. */
  function Kept(pieces: seq<string>): seq<string>
    decreases |pieces|
  {
    if pieces == [] then []
    else
      var t := Trim(pieces[|pieces| - 1]);
      Kept(pieces[..|pieces| - 1]) + if t == "" then [] else [t]
  }

  function Statements(s: string): seq<string> { Kept(Pieces(s)) }

  lemma {:induction false} KeptSnoc(pieces: seq<string>, p: string)
    ensures Kept(pieces + [p]) == Kept(pieces) + if Trim(p) == "" then [] else [Trim(p)]
  {
    assert (pieces + [p])[..|pieces|] == pieces;
  }

  lemma {:induction false} KeptAppend(a: seq<string>, b: seq<string>)
    ensures Kept(a + b) == Kept(a) + Kept(b)
    decreases |b|
  {
    if b == [] {
      assert a + b == a && Kept(a) + [] == Kept(a);
    } else {
      var n := |b| - 1;
      KeptAppend(a, b[..n]);
      assert a + b == (a + b[..n]) + [b[n]] && b == b[..n] + [b[n]];
      KeptSnoc(a + b[..n], b[n]);
      KeptSnoc(b[..n], b[n]);
    }
  }

  /** The scan of the source: one pass with three quote flags and an escape flag. */
  method SplitStatements(query: string) returns (statements: seq<string>)
    ensures statements == Statements(query)
  {
    statements := [];
    var current := "";
    var inSingleQuote, inDoubleQuote, inBacktick, escaped := false, false, false, false;
    var i := 0;
    while i < |query|
      invariant 0 <= i <= |query|
      invariant !(inSingleQuote && inDoubleQuote) && !(inSingleQuote && inBacktick) && !(inDoubleQuote && inBacktick)
      invariant CutOf(query[..i]).current == current && statements == Kept(CutOf(query[..i]).done)
      invariant CutOf(query[..i]).mode ==
        Mode(if inSingleQuote then Single else if inDoubleQuote then Double
             else if inBacktick then Backtick else Plain, escaped)
    {
      var c := query[i];
      assert query[..i + 1] == query[..i] + [c];
      assert CutOf(query[..i + 1]) == Feed(CutOf(query[..i]), c) by { assert query[..i + 1][..i] == query[..i]; }
      if escaped {
        current := current + [c];
        escaped := false;
      } else if c == '\\' {
        current := current + [c];
        escaped := true;
      } else if c == '\'' && !inDoubleQuote && !inBacktick {
        inSingleQuote := !inSingleQuote;
        current := current + [c];
      } else if c == '"' && !inSingleQuote && !inBacktick {
        inDoubleQuote := !inDoubleQuote;
        current := current + [c];
      } else if c == '`' && !inSingleQuote && !inDoubleQuote {
        inBacktick := !inBacktick;
        current := current + [c];
      } else if c == ';' && !inSingleQuote && !inDoubleQuote && !inBacktick {
        KeptSnoc(CutOf(query[..i]).done, current);
        var stmt := Trim(current);
        if stmt != "" { statements := statements + [stmt]; }
        current := "";
      } else {
        current := current + [c];
      }
      i := i + 1;
    }
    assert query[..i] == query;
    KeptSnoc(CutOf(query).done, current);
    var stmt := Trim(current);
    if stmt != "" { statements := statements + [stmt]; }
  }

  // ---------------------------------------------------------------- laws of cutting

  lemma {:induction false} RunAppend(c: Cut, a: string, b: string)
    ensures Run(c, a + b) == Run(Run(c, a), b)
    decreases |b|
  {
    if b == "" {
      assert a + b == a;
    } else {
      RunAppend(c, a, b[..|b| - 1]);
      assert (a + b)[..|a + b| - 1] == a + b[..|b| - 1];
    }
  }

  /** What came before only lengthens the first piece. */
  function Resume(c: Cut, r: Cut): Cut {
    if r.done == [] then Cut(c.done, c.current + r.current, r.mode)
    else Cut(c.done + [c.current + r.done[0]] + r.done[1..], r.current, r.mode)
  }

  lemma {:induction false} RunResumes(c: Cut, s: string)
    ensures Run(c, s) == Resume(c, Run(Cut([], "", c.mode), s))
    decreases |s|
  {
    if s == "" {
      assert c.current + "" == c.current;
    } else {
      RunResumes(c, s[..|s| - 1]);
      ResumeFeed(c, Run(Cut([], "", c.mode), s[..|s| - 1]), s[|s| - 1]);
    }
  }

  lemma {:induction false} ResumeFeed(c: Cut, r: Cut, ch: char)
    ensures Feed(Resume(c, r), ch) == Resume(c, Feed(r, ch))
  {
    if r.done == [] {
      assert (c.current + r.current) + [ch] == c.current + (r.current + [ch]);
      assert ([] + [r.current])[1..] == [];
      assert c.done + [c.current + r.current] + [] == c.done + [c.current + r.current];
    } else {
      assert (r.done + [r.current])[1..] == r.done[1..] + [r.current];
      assert (c.done + [c.current + r.done[0]] + r.done[1..]) + [r.current] ==
             c.done + [c.current + r.done[0]] + (r.done[1..] + [r.current]);
    }
  }

  /** Pieces joined again by semicolons. */
  function Glue(done: seq<string>): string
    decreases |done|
  {
    if done == [] then "" else Glue(done[..|done| - 1]) + done[|done| - 1] + ";"
  }

  /** Nothing is lost: the untrimmed pieces, joined by semicolons, are the text. */
  lemma {:induction false} PiecesRejoin(s: string)
    ensures Glue(CutOf(s).done) + CutOf(s).current == s
    decreases |s|
  {
    if s != "" {
      var n := |s| - 1;
      PiecesRejoin(s[..n]);
      var c := CutOf(s[..n]);
      assert s == s[..n] + [s[n]];
      if s[n] == ';' && c.mode == START {
        assert (c.done + [c.current])[..|c.done|] == c.done;
        assert Glue(c.done) + c.current + ";" + "" == s;
      } else {
        assert Glue(c.done) + (c.current + [s[n]]) == Glue(c.done) + c.current + [s[n]];
      }
    }
  }

  /** Cutting is a homomorphism: if the scan of `p` ends outside quotes and escapes, a
      semicolon after it separates the statements of `p` from those of `q`. */
  lemma {:induction false} SplitIsHomomorphism(p: string, q: string)
    requires CutOf(p).mode == START
    ensures Pieces(p + ";" + q) == Pieces(p) + Pieces(q)
    ensures Statements(p + ";" + q) == Statements(p) + Statements(q)
  {
    var c, r := CutOf(p), CutOf(q);
    assert (p + ";")[..|p|] == p;
    assert CutOf(p + ";") == Cut(c.done + [c.current], "", START);
    RunAppend(Cut([], "", START), p + ";", q);
    var d := CutOf(p + ";");
    RunResumes(d, q);
    assert CutOf(p + ";" + q) == Resume(d, r);
    if r.done == [] {
      assert "" + r.current == r.current;
      assert Pieces(p + ";" + q) == Pieces(p) + Pieces(q);
    } else {
      assert "" + r.done[0] == r.done[0];
      assert [r.done[0]] + r.done[1..] == r.done;
      assert Pieces(p + ";" + q) == (Pieces(p) + ([r.done[0]] + r.done[1..])) + [r.current];
      assert Pieces(p + ";" + q) == Pieces(p) + Pieces(q);
    }
    KeptAppend(Pieces(p), Pieces(q));
  }

  /** A text with no semicolon to cut at. */
  predicate Whole(s: string) { CutOf(s).done == [] }

  lemma {:induction false} WholeIsCurrent(s: string)
    requires Whole(s)
    ensures CutOf(s).current == s && Pieces(s) == [s]
  {
    PiecesRejoin(s);
    assert "" + CutOf(s).current == CutOf(s).current;
  }

  lemma {:induction false} WholePrefix(s: string, n: nat)
    requires Whole(s) && n <= |s|
    ensures Whole(s[..n])
    decreases |s|
  {
    if n == |s| {
      assert s[..n] == s;
    } else {
      WholePrefix(s[..|s| - 1], n);
      assert s[..|s| - 1][..n] == s[..n];
    }
  }

  lemma {:induction false} WholeTrimLeft(s: string)
    requires Whole(s)
    ensures Whole(TrimLeft(s))
  {
    if s != "" && IsSpace(s[0]) {
      var one := [s[0]];
      assert s == one + s[1..] && one[..0] == "";
      RunAppend(Cut([], "", START), one, s[1..]);
      assert Run(Cut([], "", START), "") == Cut([], "", START);
      assert CutOf(one) == Feed(Run(Cut([], "", START), one[..0]), one[0]);
      RunResumes(CutOf(one), s[1..]);
      WholeTrimLeft(s[1..]);
    }
  }

  lemma {:induction false} PiecesAreWhole(s: string)
    ensures forall p :: p in Pieces(s) ==> Whole(p)
    ensures CutOf(CutOf(s).current).mode == CutOf(s).mode
    decreases |s|
  {
    if s != "" {
      var n := |s| - 1;
      PiecesAreWhole(s[..n]);
      var c := CutOf(s[..n]);
      assert c.current in Pieces(s[..n]);
      WholeIsCurrent(c.current);
      if !(s[n] == ';' && c.mode == START) {
        var p := c.current + [s[n]];
        assert p[..|p| - 1] == c.current;
        assert CutOf(p) == Feed(CutOf(c.current), s[n]);
      }
      forall p | p in Pieces(s) ensures Whole(p) {
        if p !in Pieces(s[..n]) { assert p == CutOf(s).current; }
      }
    }
  }

  /** Each statement found is a statement by itself: cutting it again gives just it. */
  lemma {:induction false} StatementsAreStable(s: string, t: string)
    requires t in Statements(s)
    ensures Statements(t) == [t]
  {
    PiecesAreWhole(s);
    var p := KeptFrom(Pieces(s), t);
    WholeTrimLeft(p);
    TrimRightPrefix(TrimLeft(p));
    WholePrefix(TrimLeft(p), |t|);
    assert TrimLeft(p)[..|t|] == t;
    WholeIsCurrent(t);
    TrimTwice(p);
    KeptSnoc([], t);
    assert [] + [t] == [t];
  }

  lemma {:induction false} KeptFrom(pieces: seq<string>, t: string) returns (p: string)
    requires t in Kept(pieces)
    ensures p in pieces && t == Trim(p) && t != ""
    decreases |pieces|
  {
    var n := |pieces| - 1;
    if t in Kept(pieces[..n]) {
      p := KeptFrom(pieces[..n], t);
    } else {
      p := pieces[n];
    }
  }
}
