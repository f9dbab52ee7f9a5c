/** What quoting means for the splitter, said without its modes: a text is read as plain
    characters, quoted stretches and escapes, and only a semicolon between these separates
    statements. Every text can be read in this way. */
module SqlQuoting {
  import Network
  import opened SqlScanner

  // ---------------------------------------------------------------- how a text is read

  /** Inside quotes: a character, or a backslash and any character. */
  datatype Bit = Char(c: char) | Escaped(c: char)
  {
    function Text(): string { if Char? then [c] else ['\\', c] }
    predicate Within(mark: char) { Char? ==> c != mark && c != '\\' }
  }

  datatype Bits = NoBits | More(before: Bits, bit: Bit)
  {
    function Text(): string { if NoBits? then "" else before.Text() + bit.Text() }
    predicate Within(mark: char) { More? ==> before.Within(mark) && bit.Within(mark) }
  }

  predicate IsMark(c: char) { c == '\'' || c == '"' || c == '`' }

  /** A character that means itself, a stretch between two equal quotes, or a backslash and any
      character. */
  datatype Segment = Bare(c: char) | Quoted(mark: char, bits: Bits) | Escape(c: char)
  {
    predicate Legal() {
      match this
      case Bare(c) => !IsMark(c) && c != '\\' && c != ';'
      case Quoted(mark, bits) => IsMark(mark) && bits.Within(mark)
      case Escape(_) => true
    }
    function Text(): string {
      match this
      case Bare(c) => [c]
      case Quoted(mark, bits) => ([mark] + bits.Text()) + [mark]
      case Escape(c) => ['\\', c]
    }
  }

  datatype Reading = Nothing | Next(before: Reading, segment: Segment)
  {
    predicate Legal() { Next? ==> before.Legal() && segment.Legal() }
    function Text(): string { if Nothing? then "" else before.Text() + segment.Text() }
  }

  /** Readings with a semicolon after each. */
  datatype Series = Start | Upto(before: Series, reading: Reading)
  {
    predicate Legal() { Upto? ==> before.Legal() && reading.Legal() }
    function Text(): string { if Start? then "" else before.Text() + (reading.Text() + ";") }
    function Texts(): seq<string> { if Start? then [] else before.Texts() + [reading.Text()] }
  }

  /** What may be left unfinished at the end of a text: a quote that is not closed, a backslash
      with nothing after it, or both. */
  datatype End = Closed | Dangling | Open(mark: char, bits: Bits) | OpenDangling(mark: char, bits: Bits)
  {
    predicate Legal() { Open? || OpenDangling? ==> IsMark(mark) && bits.Within(mark) }
    function Text(): string {
      match this
      case Closed => ""
      case Dangling => "\\"
      case Open(mark, bits) => [mark] + bits.Text()
      case OpenDangling(mark, bits) => ([mark] + bits.Text()) + "\\"
    }
  }

  // ---------------------------------------------------------------- the scan of a reading

  function QuoteOf(mark: char): Quote { if mark == '\'' then Single else if mark == '"' then Double else Backtick }

  function ModeOf(e: End): Mode {
    match e
    case Closed => Mode(Plain, false)
    case Dangling => Mode(Plain, true)
    case Open(mark, _) => Mode(QuoteOf(mark), false)
    case OpenDangling(mark, _) => Mode(QuoteOf(mark), true)
  }

  /** The scan goes on in the piece it is in. */
  function Grown(c: Cut, s: string, m: Mode): Cut { Cut(c.done, c.current + s, m) }

  lemma {:induction false} RunNone(c: Cut)
    ensures Run(c, "") == c == Grown(c, "", c.mode)
  {
    assert c.current + "" == c.current;
  }

  lemma {:induction false} RunOne(c: Cut, ch: char)
    ensures Run(c, [ch]) == Feed(c, ch)
  {
    assert [ch][..0] == "" && Run(c, "") == c;
    assert Run(c, [ch]) == Feed(Run(c, [ch][..0]), ch);
  }

  lemma {:induction false} RunTwo(c: Cut, a: char, b: char)
    ensures Run(c, [a, b]) == Feed(Feed(c, a), b)
  {
    RunAppend(c, [a], [b]);
    assert [a] + [b] == [a, b];
    RunOne(c, a);
    RunOne(Feed(c, a), b);
  }

  /** Two stretches of text, one after the other, that both stay in the piece. */
  lemma {:induction false} RunBoth(c: Cut, a: string, m: Mode, b: string, k: Mode)
    requires Run(c, a) == Grown(c, a, m) && Run(Grown(c, a, m), b) == Grown(Grown(c, a, m), b, k)
    ensures Run(c, a + b) == Grown(c, a + b, k)
  {
    RunAppend(c, a, b);
    Network.Regroup(c.current, a, b);
  }

  lemma {:induction false} RunBit(c: Cut, mark: char, b: Bit)
    requires IsMark(mark) && b.Within(mark) && c.mode == Mode(QuoteOf(mark), false)
    ensures Run(c, b.Text()) == Grown(c, b.Text(), c.mode)
  {
    if b.Char? {
      RunOne(c, b.c);
    } else {
      RunTwo(c, '\\', b.c);
      assert (c.current + ['\\']) + [b.c] == c.current + ['\\', b.c];
    }
  }

  lemma {:induction false} RunBits(c: Cut, mark: char, bits: Bits)
    requires IsMark(mark) && bits.Within(mark) && c.mode == Mode(QuoteOf(mark), false)
    ensures Run(c, bits.Text()) == Grown(c, bits.Text(), c.mode)
    decreases bits
  {
    if bits.NoBits? {
      RunNone(c);
    } else {
      RunBits(c, mark, bits.before);
      RunBit(Grown(c, bits.before.Text(), c.mode), mark, bits.bit);
      RunBoth(c, bits.before.Text(), c.mode, bits.bit.Text(), c.mode);
    }
  }

  lemma {:induction false} RunOpen(c: Cut, mark: char, bits: Bits)
    requires IsMark(mark) && bits.Within(mark) && c.mode == START
    ensures Run(c, [mark] + bits.Text()) == Grown(c, [mark] + bits.Text(), Mode(QuoteOf(mark), false))
  {
    var m := Mode(QuoteOf(mark), false);
    RunOne(c, mark);
    RunBits(Grown(c, [mark], m), mark, bits);
    RunBoth(c, [mark], m, bits.Text(), m);
  }

  lemma {:induction false} RunQuoted(c: Cut, mark: char, bits: Bits)
    requires IsMark(mark) && bits.Within(mark) && c.mode == START
    ensures Run(c, Quoted(mark, bits).Text()) == Grown(c, Quoted(mark, bits).Text(), START)
  {
    var m, body := Mode(QuoteOf(mark), false), [mark] + bits.Text();
    RunOpen(c, mark, bits);
    RunOne(Grown(c, body, m), mark);
    RunBoth(c, body, m, [mark], START);
  }

  lemma {:induction false} RunSegment(c: Cut, s: Segment)
    requires s.Legal() && c.mode == START
    ensures Run(c, s.Text()) == Grown(c, s.Text(), START)
  {
    match s
    case Bare(ch) => RunOne(c, ch);
    case Escape(ch) =>
      RunTwo(c, '\\', ch);
      assert (c.current + ['\\']) + [ch] == c.current + ['\\', ch];
    case Quoted(mark, bits) => RunQuoted(c, mark, bits);
  }

  lemma {:induction false} RunReading(c: Cut, r: Reading)
    requires r.Legal() && c.mode == START
    ensures Run(c, r.Text()) == Grown(c, r.Text(), START)
    decreases r
  {
    if r.Nothing? {
      RunNone(c);
    } else {
      RunReading(c, r.before);
      RunSegment(Grown(c, r.before.Text(), START), r.segment);
      RunBoth(c, r.before.Text(), START, r.segment.Text(), START);
    }
  }

  lemma {:induction false} RunEnd(c: Cut, e: End)
    requires e.Legal() && c.mode == START
    ensures Run(c, e.Text()) == Grown(c, e.Text(), ModeOf(e))
  {
    match e
    case Closed => RunNone(c);
    case Dangling => RunOne(c, '\\');
    case Open(mark, bits) => RunOpen(c, mark, bits);
    case OpenDangling(mark, bits) =>
      var m, body := Mode(QuoteOf(mark), false), [mark] + bits.Text();
      RunOpen(c, mark, bits);
      RunOne(Grown(c, body, m), '\\');
      RunBoth(c, body, m, "\\", ModeOf(e));
  }

  lemma {:induction false} RunPiece(done: seq<string>, r: Reading)
    requires r.Legal()
    ensures Run(Cut(done, "", START), r.Text() + ";") == Cut(done + [r.Text()], "", START)
  {
    var c := Cut(done, "", START);
    RunReading(c, r);
    RunAppend(c, r.Text(), ";");
    RunOne(Grown(c, r.Text(), START), ';');
    assert "" + r.Text() == r.Text();
  }

  lemma {:induction false} RunSeries(s: Series)
    requires s.Legal()
    ensures CutOf(s.Text()) == Cut(s.Texts(), "", START)
  {
    if s.Upto? {
      RunSeries(s.before);
      RunPiece(s.before.Texts(), s.reading);
      RunAppend(Cut([], "", START), s.before.Text(), s.reading.Text() + ";");
    }
  }

  // ---------------------------------------------------------------- the statements of a text

  /** A text: readings each followed by a semicolon, a last one, and an unfinished end. */
  datatype Script = Script(done: Series, last: Reading, end: End)
  {
    predicate Legal() { done.Legal() && last.Legal() && end.Legal() }
    function Rest(): string { last.Text() + end.Text() }
    function Text(): string { done.Text() + Rest() }
  }

  lemma {:induction false} RunScript(s: Script)
    requires s.Legal()
    ensures CutOf(s.Text()) == Cut(s.done.Texts(), s.Rest(), ModeOf(s.end))
  {
    var c := Cut(s.done.Texts(), "", START);
    RunSeries(s.done);
    RunAppend(Cut([], "", START), s.done.Text(), s.Rest());
    RunReading(c, s.last);
    RunEnd(Grown(c, s.last.Text(), START), s.end);
    RunBoth(c, s.last.Text(), START, s.end.Text(), ModeOf(s.end));
    assert "" + s.Rest() == s.Rest();
  }

  /** Only the semicolons between readings cut: the pieces are the texts of the readings, and the
      statements are these without the space around them, empty ones left out. */
  lemma {:induction false} CutsBetweenReadings(s: Script)
    requires s.Legal()
    ensures Pieces(s.Text()) == s.done.Texts() + [s.Rest()]
    ensures Statements(s.Text()) == Kept(s.done.Texts() + [s.Rest()])
    ensures CutOf(s.Text()).mode == START <==> s.end.Closed?
  {
    RunScript(s);
  }

  lemma {:induction false} AloneText(r: Reading)
    ensures Script(Start, r, Closed).Text() == r.Text() == Script(Start, r, Closed).Rest()
  {
    assert r.Text() + "" == r.Text() && "" + r.Text() == r.Text();
  }

  /** So quoted and escaped semicolons never cut: a single reading is a single statement. */
  lemma {:induction false} ReadingIsOne(r: Reading)
    requires r.Legal()
    ensures Statements(r.Text()) == if Trim(r.Text()) == "" then [] else [Trim(r.Text())]
  {
    var s := Script(Start, r, Closed);
    CutsBetweenReadings(s);
    AloneText(r);
    assert s.done.Texts() + [s.Rest()] == [r.Text()];
    KeptOne(r.Text());
  }

  lemma {:induction false} KeptOne(t: string)
    ensures Kept([t]) == if Trim(t) == "" then [] else [Trim(t)]
  {
    assert [t][..0] == [];
    assert Kept([t][..0]) == [];
  }

  /** And a semicolon between two readings always does. */
  lemma {:induction false} SemicolonCuts(a: Reading, b: Reading)
    requires a.Legal() && b.Legal()
    ensures Statements(a.Text() + ";" + b.Text()) == Statements(a.Text()) + Statements(b.Text())
  {
    CutsBetweenReadings(Script(Start, a, Closed));
    AloneText(a);
    SplitIsHomomorphism(a.Text(), b.Text());
  }

  // ---------------------------------------------------------------- every text can be read

  /** One more character, after a text with nothing unfinished. */
  lemma {:induction false} ReadPlain(s: Script, c: char) returns (t: Script)
    requires s.Legal() && s.end.Closed?
    ensures t.Legal() && t.Text() == s.Text() + [c]
  {
    var d, l := s.done.Text(), s.last.Text();
    assert l + "" == l;
    Network.Regroup(d, l, [c]);
    if c == ';' {
      t := Script(Upto(s.done, s.last), Nothing, Closed);
      assert (d + (l + ";")) + "" == d + (l + ";");
    } else if c == '\\' {
      t := s.(end := Dangling);
    } else if IsMark(c) {
      t := s.(end := Open(c, NoBits));
      assert [c] + "" == [c];
    } else {
      t := s.(last := Next(s.last, Bare(c)));
      assert (l + [c]) + "" == l + [c];
    }
  }

  /** One more character inside quotes, or after a backslash. */
  lemma {:induction false} ReadMore(last: Reading, e: End, c: char) returns (l: Reading, f: End)
    requires last.Legal() && e.Legal() && !e.Closed?
    ensures l.Legal() && f.Legal() && l.Text() + f.Text() == (last.Text() + e.Text()) + [c]
  {
    l, f := last, Closed;
    match e
    case Dangling =>
      l := Next(last, Escape(c));
      assert (last.Text() + ['\\', c]) + "" == (last.Text() + "\\") + [c];
    case Open(mark, bits) =>
      var t := [mark] + bits.Text();
      Network.Regroup(last.Text(), t, [c]);
      Network.Regroup([mark], bits.Text(), [c]);
      if c == mark {
        l := Next(last, Quoted(mark, bits));
        assert (last.Text() + (t + [c])) + "" == last.Text() + (t + [c]);
      } else {
        f := if c == '\\' then OpenDangling(mark, bits) else Open(mark, More(bits, Char(c)));
      }
    case OpenDangling(mark, bits) =>
      f := Open(mark, More(bits, Escaped(c)));
      assert [mark] + (bits.Text() + ['\\', c]) == (([mark] + bits.Text()) + "\\") + [c];
      Network.Regroup(last.Text(), e.Text(), [c]);
  }

  lemma {:induction false} ReadNext(s: Script, c: char) returns (t: Script)
    requires s.Legal()
    ensures t.Legal() && t.Text() == s.Text() + [c]
  {
    if s.end.Closed? {
      t := ReadPlain(s, c);
    } else {
      var l, f := ReadMore(s.last, s.end, c);
      t := Script(s.done, l, f);
      Network.Regroup(s.done.Text(), s.Rest(), [c]);
    }
  }

  lemma {:induction false} EmptyText(t: Script)
    requires t == Script(Start, Nothing, Closed)
    ensures t.Legal() && t.Text() == ""
  {
    assert "" + "" == "";
  }

  lemma {:induction false} PrefixSnoc(s: string, n: nat)
    requires n < |s|
    ensures s[..n + 1] == s[..n] + [s[n]]
  {}

  lemma {:induction false} EveryPrefixReads(s: string, n: nat) returns (t: Script)
    requires n <= |s|
    ensures t.Legal() && t.Text() == s[..n]
  {
    if n == 0 {
      t := Script(Start, Nothing, Closed);
      EmptyText(t);
    } else {
      var u := EveryPrefixReads(s, n - 1);
      t := ReadNext(u, s[n - 1]);
      PrefixSnoc(s, n - 1);
    }
  }

  /** Every text can be read so; with `CutsBetweenReadings` this gives the statements of all texts. */
  lemma {:induction false} EveryTextReads(s: string) returns (t: Script)
    ensures t.Legal() && t.Text() == s
  {
    t := EveryPrefixReads(s, |s|);
    assert s[..|s|] == s;
  }

  // ---------------------------------------------------------------- the space around statements

  /** Tab, line feed, vertical tab, form feed, carriage return and space. */
  predicate SpaceChar(c: char) { 9 <= c as int <= 13 || c as int == 32 }

  predicate AllSpace(s: string) { forall i :: 0 <= i < |s| ==> SpaceChar(s[i]) }

  /** Trimming takes exactly these characters off both ends. */
  lemma {:induction false} TrimExactly(a: string, core: string, b: string)
    requires AllSpace(a) && AllSpace(b)
    requires core == "" || (!SpaceChar(core[0]) && !SpaceChar(core[|core| - 1]))
    ensures Trim(a + core + b) == core
  {
    if core == "" {
      assert a + core + b == a + b;
      TrimLeftOff(a + b, "");
      assert (a + b) + "" == a + b;
    } else {
      TrimLeftOff(a, core + b);
      assert a + core + b == a + (core + b);
      TrimRightOff(core, b);
    }
  }

  lemma {:induction false} TrimLeftOff(a: string, t: string)
    requires AllSpace(a) && (t == "" || !SpaceChar(t[0]))
    ensures TrimLeft(a + t) == t
  {
    if a == "" {
      assert a + t == t;
    } else {
      assert (a + t)[1..] == a[1..] + t;
      TrimLeftOff(a[1..], t);
    }
  }

  lemma {:induction false} TrimRightOff(t: string, b: string)
    requires AllSpace(b) && (t == "" || !SpaceChar(t[|t| - 1]))
    ensures TrimRight(t + b) == t
    decreases |b|
  {
    if b == "" {
      assert t + b == t;
    } else {
      var n := |b| - 1;
      assert (t + b)[..|t + b| - 1] == t + b[..n];
      TrimRightOff(t, b[..n]);
    }
  }
}
