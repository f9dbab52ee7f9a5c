/** Spacing, case and comments do not matter: the operation of a statement depends on its first
    words alone, however they are laid out. */
module SqlLayout {
  import Network
  import opened SqlScanner
  import opened SqlComments
  import opened SqlOperations

  // ---------------------------------------------------------------- between and before words

  /** What can stand between two words. */
  datatype Filler = Blank(c: char) | Comment(body: string)
  {
    predicate Legal() { if Blank? then c == ' ' || c == '\t' || c == '\n' || c == '\r' else ClosedBy(body) }
    function Text(): string { if Blank? then [c] else "/*" + body + "*/" }
    /** What is left of it once comments are taken out. */
    function Bare(): string { if Blank? then [c] else " " }
  }

  type Gap = seq<Filler>

  predicate LegalGap(g: Gap) { forall f :: f in g ==> f.Legal() }

  function GapText(g: Gap): string { if g == [] then "" else g[0].Text() + GapText(g[1..]) }
  function GapBare(g: Gap): string { if g == [] then "" else g[0].Bare() + GapBare(g[1..]) }

  /** What can stand before the first word: spaces, line comments, and block comments that do not
      begin with a slash. */
  datatype Lead = Space(c: char) | Line(text: string) | Block(body: string)
  {
    predicate Legal() {
      match this
      case Space(c) => 9 <= c as int <= 13 || c == ' '
      case Line(text) => '\n' !in text
      case Block(body) => ClosedBy(body) && (body == "" || body[0] != '/')
    }
    function Text(): string {
      match this
      case Space(c) => [c]
      case Line(text) => "--" + text + "\n"
      case Block(body) => "/*" + body + "*/"
    }
  }

  function LeadText(lead: seq<Lead>): string { if lead == [] then "" else lead[0].Text() + LeadText(lead[1..]) }

  /** Words with the given text before each, and a rest after them. */
  function Layout(ws: seq<string>, gaps: seq<string>, rest: string): string
    requires |gaps| == |ws|
  {
    if ws == [] then rest else gaps[0] + ws[0] + Layout(ws[1..], gaps[1..], rest)
  }

  function Texts(gaps: seq<Gap>): seq<string> { seq(|gaps|, i requires 0 <= i < |gaps| => GapText(gaps[i])) }
  function Bares(gaps: seq<Gap>): seq<string> { seq(|gaps|, i requires 0 <= i < |gaps| => GapBare(gaps[i])) }

  /** A word with no space, parenthesis or start of a comment in it. */
  predicate PlainWord(w: string) {
    w != "" && (forall i :: 0 <= i < |w| ==> !(9 <= w[i] as int <= 13) && w[i] != ' ' && w[i] != '(') &&
    forall j :: 0 <= j < |w| ==> !At(w, j, '/', '*')
  }

  predicate PlainWords(ws: seq<string>) { forall i :: 0 <= i < |ws| ==> PlainWord(ws[i]) }

  /** Gaps of blanks and closed comments, none of them empty after the first. */
  predicate LegalGaps(gaps: seq<Gap>) {
    (forall i :: 0 <= i < |gaps| ==> LegalGap(gaps[i])) && forall i :: 1 <= i < |gaps| ==> gaps[i] != []
  }

  /** What may follow `n` words. Any text will do that, trimmed and without its comments, starts
      with a blank or a parenthesis, if any; after fewer than four words only a parenthesis may
      follow the blanks. */
  predicate MayFollow(n: nat, rest: string) {
    var r := Strip(TrimRight(rest));
    (r == "" || Ends(r[0])) && (n >= MAX_WORDS || SkipBlank(r) == "" || SkipBlank(r)[0] == '(')
  }

  // ---------------------------------------------------------------- trimming and leading comments

  lemma {:induction false} TrimRightAfter(x: string, rest: string)
    requires x != "" && !IsSpace(x[|x| - 1])
    ensures TrimRight(x + rest) == x + TrimRight(rest)
    decreases |rest|
  {
    if rest != "" && IsSpace(rest[|rest| - 1]) {
      assert (x + rest)[..|x + rest| - 1] == x + rest[..|rest| - 1];
      TrimRightAfter(x, rest[..|rest| - 1]);
    } else {
      TrimRightPrefix(rest);
      if rest == "" { assert x + rest == x; }
    }
  }

  lemma {:induction false} TrimRightKeepsHead(s: string)
    requires s != "" && !IsSpace(s[0])
    ensures TrimRight(s) != "" && TrimRight(s)[0] == s[0]
    ensures Trim(s) == TrimRight(s) && Trim(TrimRight(s)) == TrimRight(s)
  {
    assert s == [s[0]] + s[1..];
    TrimRightAfter([s[0]], s[1..]);
    TrimRightPrefix(s);
    assert TrimLeft(s) == s && TrimLeft(TrimRight(s)) == TrimRight(s);
  }

  /** Trailing space plays no part. */
  lemma {:induction false} TrimOfTrimRight(s: string)
    ensures Trim(TrimRight(s)) == Trim(s)
    decreases |s|
  {
    if s != "" {
      if IsSpace(s[0]) {
        TrimRightOfSpaced(s);
        TrimOfTrimRight(s[1..]);
      } else {
        TrimRightKeepsHead(s);
      }
    }
  }

  lemma {:induction false} TrimRightOfSpaced(s: string)
    requires s != "" && IsSpace(s[0])
    ensures TrimRight(s) == if TrimRight(s[1..]) == "" then "" else [s[0]] + TrimRight(s[1..])
    decreases |s|
  {
    if |s| > 1 && IsSpace(s[|s| - 1]) {
      var t := s[..|s| - 1];
      assert t[1..] == s[1..][..|s[1..]| - 1];
      TrimRightOfSpaced(t);
    } else if |s| == 1 {
      assert s[1..] == "" && s[..0] == "";
    } else {
      assert s == [s[0]] + s[1..];
    }
  }

  /** What is left after leading comments depends on the trimmed text only. */
  lemma {:induction false} SameTrimSameStrip(a: string, b: string)
    requires Trim(a) == Trim(b)
    ensures StripLeading(a) == StripLeading(b)
  {
    TrimShrinks(a);
    TrimShrinks(b);
  }

  lemma {:induction false} DropLine(text: string, u: string)
    requires '\n' !in text
    ensures var s := "--" + text + "\n" + u; At(s, 0, '-', '-') && DropOne(s) == u
  {
    var s := "--" + text + "\n" + u;
    IndexOfIs(s, '\n', 2 + |text|);
    assert s[2 + |text| + 1..] == u;
  }

  lemma {:induction false} IndexOfIs(s: string, c: char, i: nat)
    requires i < |s| && s[i] == c && forall j :: 0 <= j < i ==> s[j] != c
    ensures IndexOf(s, c) == i
  {
    if i > 0 { IndexOfIs(s[1..], c, i - 1); }
  }

  lemma {:induction false} DropBlock(body: string, u: string)
    requires ClosedBy(body) && (body == "" || body[0] != '/')
    ensures var s := "/*" + body + "*/" + u; At(s, 0, '/', '*') && DropOne(s) == u
  {
    var s := "/*" + body + "*/" + u;
    FindFinds(body + "*/", '*', '/');
    forall j | 0 <= j < |body| + 2 ensures !At(s, j, '*', '/') {
      if j >= 2 { assert !At(body + "*/", j - 2, '*', '/'); }
    }
    FindIs(s, '*', '/', |body| + 2);
    assert s[|body| + 4..] == u;
  }

  predicate StartsBare(body: string) {
    body != "" && !IsSpace(body[0]) && !At(body, 0, '-', '-') && !At(body, 0, '/', '*')
  }

  lemma {:induction false} LeadHead(lead: seq<Lead>, body: string)
    requires lead != []
    ensures LeadText(lead) + body == lead[0].Text() + (LeadText(lead[1..]) + body)
  {
    Network.Regroup(lead[0].Text(), LeadText(lead[1..]), body);
  }

  lemma {:induction false} LeadOfBare(lead: seq<Lead>, body: string)
    requires StartsBare(body) && (forall x :: x in lead ==> x.Legal())
    ensures StripLeading(LeadText(lead) + body) == TrimRight(body)
    decreases |lead|
  {
    if lead == [] {
      assert LeadText(lead) + body == body;
      TrimRightKeepsHead(body);
      TrimRightPrefix(body);
      TrimShrinks(body);
    } else {
      var x, u := lead[0], LeadText(lead[1..]) + body;
      assert x in lead;
      LeadOfBare(lead[1..], body);
      LeadHead(lead, body);
      OneLead(x, u);
    }
  }

  /** One leading space or comment is passed over. */
  lemma {:induction false} OneLead(x: Lead, u: string)
    requires x.Legal()
    ensures StripLeading(x.Text() + u) == StripLeading(u)
  {
    var s := x.Text() + u;
    if x.Space? {
      assert s[1..] == u;
      SameTrimSameStrip(s, u);
    } else {
      var t := TrimRight(u);
      if x.Line? { OneLine(x.text, u); } else { OneBlock(x.body, u); }
      TrimOfTrimRight(u);
      SameTrimSameStrip(t, u);
    }
  }

  lemma {:induction false} OneBlock(body: string, u: string)
    requires ClosedBy(body) && (body == "" || body[0] != '/')
    ensures StripLeading("/*" + body + "*/" + u) == StripLeading(TrimRight(u))
  {
    var x := "/*" + body + "*/";
    TrimRightAfter(x, u);
    TrimRightKeepsHead(x + u);
    DropBlock(body, TrimRight(u));
    TrimShrinks(x + u);
    DropOneShrinks(x + TrimRight(u));
  }

  lemma {:induction false} TrimRightBefore(a: string, u: string)
    ensures TrimRight(u) != "" ==> TrimRight(a + u) == a + TrimRight(u)
    ensures TrimRight(u) == "" ==> TrimRight(a + u) == TrimRight(a)
    decreases |u|
  {
    if u == "" {
      assert a + u == a;
    } else if IsSpace(u[|u| - 1]) {
      assert (a + u)[..|a + u| - 1] == a + u[..|u| - 1];
      TrimRightBefore(a, u[..|u| - 1]);
    }
  }

  lemma {:induction false} IndexOfNone(s: string, c: char)
    requires c !in s
    ensures IndexOf(s, c) == -1
  {
    if s != "" { IndexOfNone(s[1..], c); }
  }

  /** A line comment with nothing after it takes all. */
  lemma {:induction false} LineAlone(text: string)
    requires '\n' !in text
    ensures var s := TrimRight("--" + text + "\n"); At(s, 0, '-', '-') && DropOne(s) == ""
  {
    var s := "--" + text;
    assert (s + "\n")[..|s|] == s;
    TrimRightAfter("--", text);
    TrimRightPrefix(text);
    IndexOfNone("--" + TrimRight(text), '\n');
  }

  lemma {:induction false} OneLine(text: string, u: string)
    requires '\n' !in text
    ensures StripLeading("--" + text + "\n" + u) == StripLeading(TrimRight(u))
  {
    var x := "--" + text + "\n";
    TrimRightBefore(x, u);
    TrimRightKeepsHead(x + u);
    TrimShrinks(x + u);
    if TrimRight(u) == "" {
      LineAlone(text);
      DropOneShrinks(TrimRight(x));
    } else {
      DropLine(text, TrimRight(u));
      DropOneShrinks(x + TrimRight(u));
    }
  }

  // ---------------------------------------------------------------- comments out of a layout

  lemma {:induction false} GapHead(g: Gap, u: string)
    requires g != []
    ensures GapText(g) + u == g[0].Text() + (GapText(g[1..]) + u)
    ensures GapBare(g) + u == g[0].Bare() + (GapBare(g[1..]) + u)
  {
    Network.Regroup(g[0].Text(), GapText(g[1..]), u);
    Network.Regroup(g[0].Bare(), GapBare(g[1..]), u);
  }

  lemma {:induction false} StripGap(g: Gap, u: string)
    requires LegalGap(g)
    ensures Strip(GapText(g) + u) == GapBare(g) + Strip(u)
    decreases |g|
  {
    if g == [] {
      assert GapText(g) + u == u;
    } else {
      var f, v := g[0], GapText(g[1..]) + u;
      assert f in g;
      GapHead(g, u);
      GapHead(g, Strip(u));
      StripGap(g[1..], u);
      if f.Blank? { StripAfter(f.Text(), v); } else { StripComment(f.body, v); }
    }
  }

  lemma {:induction false} StripWord(w: string, u: string)
    requires PlainWord(w) && (u == "" || u[0] != '*')
    ensures Strip(w + u) == w + Strip(u)
  {
    forall j | 0 <= j < |w| ensures !At(w + u, j, '/', '*') { assert !At(w, j, '/', '*'); }
    StripAfter(w, u);
  }

  /** A gap, or what follows the words, never continues a slash at the end of a word. */
  lemma {:induction false} LayoutStarts(ws: seq<string>, gaps: seq<Gap>, rest: string)
    requires |gaps| == |ws| && (ws != [] ==> gaps[0] != [] && LegalGap(gaps[0])) && (rest == "" || rest[0] != '*')
    ensures var s := Layout(ws, Texts(gaps), rest); s == "" || (s[0] != '*' && (s[0] == '-' ==> ws == [] && s == rest))
  {
    if ws != [] {
      GapStart(gaps[0]);
      LayoutHead(ws, Texts(gaps), rest);
      assert Texts(gaps)[0] == GapText(gaps[0]);
    }
  }

  lemma {:induction false} LayoutHead(ws: seq<string>, gaps: seq<string>, rest: string)
    requires ws != [] && |gaps| == |ws|
    ensures Layout(ws, gaps, rest) == gaps[0] + (ws[0] + Layout(ws[1..], gaps[1..], rest))
  {
    Network.Regroup(gaps[0], ws[0], Layout(ws[1..], gaps[1..], rest));
  }

  /** Taking the comments out of a layout leaves the words and makes blanks of the comments. */
  lemma {:induction false} StripLayout(ws: seq<string>, gaps: seq<Gap>, rest: string)
    requires |gaps| == |ws| && PlainWords(ws) && LegalGaps(gaps) && (rest == "" || rest[0] != '*')
    ensures Strip(Layout(ws, Texts(gaps), rest)) == Layout(ws, Bares(gaps), Strip(rest))
    decreases |ws|
  {
    if ws != [] {
      var more := gaps[1..];
      assert Texts(gaps)[1..] == Texts(more) && Bares(gaps)[1..] == Bares(more);
      var u := Layout(ws[1..], Texts(more), rest);
      LayoutHead(ws, Texts(gaps), rest);
      LayoutHead(ws, Bares(gaps), Strip(rest));
      StripGap(gaps[0], ws[0] + u);
      LayoutStarts(ws[1..], more, rest);
      StripWord(ws[0], u);
      StripLayout(ws[1..], more, rest);
    }
  }

  // ---------------------------------------------------------------- words of a layout

  predicate AllBlank(g: string) { forall i :: 0 <= i < |g| ==> IsBlank(g[i]) }

  lemma {:induction false} BareIsBlank(g: Gap)
    requires LegalGap(g)
    ensures AllBlank(GapBare(g)) && |GapBare(g)| == |g|
  {
    if g != [] {
      assert g[0] in g;
      BareIsBlank(g[1..]);
    }
  }

  /** Gaps of blanks, none of them empty after the first. */
  predicate BlankGaps(gaps: seq<string>) {
    (forall i :: 0 <= i < |gaps| ==> AllBlank(gaps[i])) && forall i :: 1 <= i < |gaps| ==> gaps[i] != ""
  }

  lemma {:induction false} BaresAreBlank(gaps: seq<Gap>)
    requires LegalGaps(gaps)
    ensures BlankGaps(Bares(gaps))
  {
    forall i | 0 <= i < |gaps| ensures AllBlank(GapBare(gaps[i])) && |GapBare(gaps[i])| == |gaps[i]| {
      BareIsBlank(gaps[i]);
    }
  }

  lemma {:induction false} SkipBlanks(g: string, s: string)
    requires AllBlank(g) && (s == "" || !IsBlank(s[0]))
    ensures SkipBlank(g + s) == s
    decreases |g|
  {
    if g == "" {
      assert g + s == s;
    } else {
      assert (g + s)[1..] == g[1..] + s;
      SkipBlanks(g[1..], s);
    }
  }

  lemma {:induction false} WordOf(w: string, more: string)
    requires (forall i :: 0 <= i < |w| ==> !Ends(w[i])) && (more == "" || Ends(more[0]))
    ensures WordLength(w + more) == |w|
    decreases |w|
  {
    if w == "" {
      assert w + more == more;
    } else {
      assert (w + more)[1..] == w[1..] + more;
      WordOf(w[1..], more);
    }
  }

  lemma {:induction false} LayoutFirst(ws: seq<string>, gaps: seq<string>, rest: string)
    requires |gaps| == |ws| && (ws != [] ==> gaps[0] != "" && AllBlank(gaps[0])) && (rest == "" || Ends(rest[0]))
    ensures Layout(ws, gaps, rest) == "" || Ends(Layout(ws, gaps, rest)[0])
  {}

  function First(ws: seq<string>, k: nat): seq<string> { if |ws| <= k then ws else ws[..k] }

  lemma {:induction false} FirstHead(ws: seq<string>, k: nat)
    requires ws != [] && k > 0
    ensures First(ws, k) == [ws[0]] + First(ws[1..], k - 1)
  {}

  lemma {:induction false} HeadWord(g: string, w: string, more: string, k: nat)
    requires AllBlank(g) && Solid(w) && (more == "" || Ends(more[0])) && k > 0
    ensures Words(g + (w + more), k).words == [w] + Words(more, k - 1).words
  {
    SkipBlanks(g, w + more);
    WordOf(w, more);
    assert Word(w + more) == w && (w + more)[|w|..] == more;
  }

  lemma {:induction false} WordsOfLayout(ws: seq<string>, gaps: seq<string>, rest: string, k: nat)
    requires |gaps| == |ws| && AllSolid(ws) && BlankGaps(gaps) && (rest == "" || Ends(rest[0]))
    requires |ws| >= k || SkipBlank(rest) == "" || SkipBlank(rest)[0] == '('
    ensures Words(Layout(ws, gaps, rest), k).words == First(ws, k)
    decreases |ws|
  {
    if ws != [] && k > 0 {
      var g, w, more := gaps[0], ws[0], Layout(ws[1..], gaps[1..], rest);
      LayoutHead(ws, gaps, rest);
      LayoutFirst(ws[1..], gaps[1..], rest);
      HeadWord(g, w, more, k);
      WordsOfLayout(ws[1..], gaps[1..], rest, k - 1);
      FirstHead(ws, k);
    }
  }

  // ---------------------------------------------------------------- case

  function UpperAll(ws: seq<string>): seq<string> { seq(|ws|, i requires 0 <= i < |ws| => Upper(ws[i])) }

  lemma {:induction false} UpperAppend(a: string, b: string)
    ensures Upper(a + b) == Upper(a) + Upper(b)
  {}

  lemma {:induction false} UpperBlank(g: string)
    requires AllBlank(g)
    ensures Upper(g) == g
  {}

  lemma {:induction false} UpperLayout(ws: seq<string>, gaps: seq<string>, rest: string)
    requires |gaps| == |ws| && BlankGaps(gaps)
    ensures Upper(Layout(ws, gaps, rest)) == Layout(UpperAll(ws), gaps, Upper(rest))
    decreases |ws|
  {
    if ws != [] {
      UpperAppend(gaps[0] + ws[0], Layout(ws[1..], gaps[1..], rest));
      UpperAppend(gaps[0], ws[0]);
      UpperBlank(gaps[0]);
      UpperLayout(ws[1..], gaps[1..], rest);
      assert UpperAll(ws)[1..] == UpperAll(ws[1..]);
    }
  }

  lemma {:induction false} UpperSkips(r: string)
    ensures SkipBlank(Upper(r)) == Upper(SkipBlank(r))
  {
    if r != "" && IsBlank(r[0]) {
      assert Upper(r)[1..] == Upper(r[1..]);
      UpperSkips(r[1..]);
    }
  }

  lemma {:induction false} UpperSolid(ws: seq<string>)
    requires PlainWords(ws)
    ensures AllSolid(UpperAll(ws))
  {
    forall j | 0 <= j < |ws| ensures Solid(Upper(ws[j])) { assert PlainWord(ws[j]); }
  }

  // ---------------------------------------------------------------- the law

  /** Everything up to the last word ends in a character that is no space. */
  lemma {:induction false} LayoutSplits(ws: seq<string>, gaps: seq<string>, rest: string)
    requires ws != [] && |gaps| == |ws| && PlainWords(ws)
    ensures var x := Layout(ws, gaps, "");
      Layout(ws, gaps, rest) == x + rest && x != "" && !IsSpace(x[|x| - 1])
    decreases |ws|
  {
    LayoutHead(ws, gaps, rest);
    LayoutHead(ws, gaps, "");
    if |ws| > 1 {
      LayoutSplits(ws[1..], gaps[1..], rest);
    } else {
      assert PlainWord(ws[0]);
      assert ws[0] + "" == ws[0];
    }
  }

  /** The first word, with nothing before it, starts neither a comment nor with a space. */
  lemma {:induction false} LayoutIsBare(ws: seq<string>, gaps: seq<Gap>, rest: string)
    requires ws != [] && |gaps| == |ws| && PlainWords(ws) && LegalGaps(gaps) && gaps[0] == [] && !At(ws[0], 0, '-', '-')
    requires rest == "" || (rest[0] != '*' && rest[0] != '-')
    ensures StartsBare(Layout(ws, Texts(gaps), rest))
  {
    var u := Layout(ws[1..], Texts(gaps[1..]), rest);
    BareHead(ws, gaps, rest);
    LayoutStarts(ws[1..], gaps[1..], rest);
    WordIsBare(ws[0], u);
  }

  lemma {:induction false} BareHead(ws: seq<string>, gaps: seq<Gap>, rest: string)
    requires ws != [] && |gaps| == |ws| && gaps[0] == []
    ensures Layout(ws, Texts(gaps), rest) == ws[0] + Layout(ws[1..], Texts(gaps[1..]), rest)
  {
    assert Texts(gaps)[1..] == Texts(gaps[1..]) && Texts(gaps)[0] == "";
    LayoutHead(ws, Texts(gaps), rest);
    var u := Layout(ws[1..], Texts(gaps[1..]), rest);
    assert "" + (ws[0] + u) == ws[0] + u;
  }

  lemma {:induction false} WordIsBare(w: string, u: string)
    requires PlainWord(w) && !At(w, 0, '-', '-') && (u == "" || (u[0] != '*' && u[0] != '-'))
    ensures StartsBare(w + u)
  {
    assert !At(w, 0, '/', '*') && (w + u)[0] == w[0];
  }

  lemma {:induction false} GapStart(g: Gap)
    requires g != [] && LegalGap(g)
    ensures GapText(g) != "" && (GapText(g)[0] == '/' || IsBlank(GapText(g)[0]))
  {
    assert g[0] in g;
  }

  lemma {:induction false} RestStarts(n: nat, rest: string)
    requires MayFollow(n, rest)
    ensures var t := TrimRight(rest); t == "" || (t[0] != '*' && t[0] != '-')
    ensures rest == "" || (rest[0] != '*' && rest[0] != '-')
  {
    var t := TrimRight(rest);
    TrimRightPrefix(rest);
    if t != "" && !At(t, 0, '/', '*') { StripKeepsHead(t); }
    if rest != "" && !IsSpace(rest[0]) { TrimRightKeepsHead(rest); }
  }

  /** Any text at all may follow that is empty or starts with a parenthesis or, after four words,
      with a blank. */
  lemma {:induction false} MostMayFollow(n: nat, rest: string)
    requires rest == "" || rest[0] == '(' || (rest[0] in {' ', '\t', '\n', '\r'} && n >= 4)
    ensures MayFollow(n, rest)
  {
    TrimRightPrefix(rest);
    var t := TrimRight(rest);
    if t != "" { StripKeepsHead(t); }
    if rest != "" && rest[0] == '(' { TrimRightKeepsHead(rest); }
    if t == "" { FindNone(t, '/', '*'); }
  }

  /** Before comments inside it are looked at, a statement is cut down to its layout. */
  lemma {:induction false} LeadTaken(lead: seq<Lead>, ws: seq<string>, gaps: seq<Gap>, rest: string)
    requires (forall x :: x in lead ==> x.Legal())
    requires ws != [] && |gaps| == |ws| && PlainWords(ws) && LegalGaps(gaps) && gaps[0] == [] && !At(ws[0], 0, '-', '-')
    requires rest == "" || (rest[0] != '*' && rest[0] != '-')
    ensures var s := Layout(ws, Texts(gaps), TrimRight(rest));
      StripLeading(LeadText(lead) + Layout(ws, Texts(gaps), rest)) == s && Trim(s) == s && s != ""
  {
    LayoutIsBare(ws, gaps, rest);
    LayoutSplits(ws, Texts(gaps), rest);
    LayoutSplits(ws, Texts(gaps), TrimRight(rest));
    LeadAndTail(lead, Layout(ws, Texts(gaps), ""), rest);
  }

  lemma {:induction false} LeadAndTail(lead: seq<Lead>, x: string, rest: string)
    requires (forall l :: l in lead ==> l.Legal()) && StartsBare(x + rest) && x != "" && !IsSpace(x[|x| - 1])
    ensures var s := x + TrimRight(rest); StripLeading(LeadText(lead) + (x + rest)) == s && Trim(s) == s && s != ""
  {
    LeadOfBare(lead, x + rest);
    TrimRightAfter(x, rest);
    TrimRightKeepsHead(x + rest);
  }

  /** Spacing, case and comments: a statement that starts with plain words, however they are
      spelled, whatever blanks and comments stand before and between them and whatever text
      follows, has the operation of its first four words in upper case; if there are fewer before
      the end or the first parenthesis, of those. */
  lemma {:induction false} OperationIsByWords(lead: seq<Lead>, ws: seq<string>, gaps: seq<Gap>, rest: string)
    requires (forall x :: x in lead ==> x.Legal())
    requires ws != [] && |gaps| == |ws| && PlainWords(ws) && LegalGaps(gaps) && gaps[0] == [] && !At(ws[0], 0, '-', '-')
    requires MayFollow(|ws|, rest)
    ensures Operation(LeadText(lead) + Layout(ws, Texts(gaps), rest)) == TokenOp(First(UpperAll(ws), 4))
  {
    RestStarts(|ws|, rest);
    LeadTaken(lead, ws, gaps, rest);
    OperationOfBare(ws, gaps, TrimRight(rest));
  }

  lemma {:induction false} OperationOfBare(ws: seq<string>, gaps: seq<Gap>, t: string)
    requires ws != [] && |gaps| == |ws| && PlainWords(ws) && LegalGaps(gaps) && (t == "" || t[0] != '*')
    requires var r := Strip(t);
      (r == "" || Ends(r[0])) && (|ws| >= MAX_WORDS || SkipBlank(r) == "" || SkipBlank(r)[0] == '(')
    ensures OpOf(Words(Upper(Strip(Layout(ws, Texts(gaps), t))), MAX_WORDS)) == TokenOp(First(UpperAll(ws), MAX_WORDS))
  {
    StripLayout(ws, gaps, t);
    BaresAreBlank(gaps);
    UpperLayout(ws, Bares(gaps), Strip(t));
    UpperSkips(Strip(t));
    UpperSolid(ws);
    WordsOfLayout(UpperAll(ws), Bares(gaps), Upper(Strip(t)), MAX_WORDS);
  }

  // ---------------------------------------------------------------- the words of the table

  /** `w` is a spelling of `u`: letter by letter the same, or the lower case of a capital; and `u`
      has no lower case of its own. */
  predicate Spells(w: string, u: string) {
    |w| == |u| && forall i :: 0 <= i < |w| ==>
      !('a' <= u[i] <= 'z') && (w[i] == u[i] || ('A' <= u[i] <= 'Z' && w[i] as int == u[i] as int + 32))
  }

  /** Upper case is the one text without lower case that a word spells. */
  lemma {:induction false} UpperSpells(w: string, u: string)
    ensures Upper(w) == u <==> Spells(w, u)
  {
    if Spells(w, u) {
      assert forall i :: 0 <= i < |w| ==> UpperChar(w[i]) == u[i];
    }
  }

  predicate SpellsEntry(ws: seq<string>, i: nat)
    requires i < OPS
  {
    var us := Entry(i).words;
    |us| <= |ws| && forall k :: 0 <= k < |us| ==> Spells(ws[k], us[k])
  }

  lemma {:induction false} EntrySpelled(ws: seq<string>, i: nat)
    requires i < OPS && ws != []
    ensures SpellsEntry(ws, i) <==> Entry(i).words <= First(UpperAll(ws), 4)
  {
    EntryShape(i);
    var us, up := Entry(i).words, First(UpperAll(ws), 4);
    forall k | 0 <= k < |us| && k < |ws| ensures Spells(ws[k], us[k]) <==> up[k] == us[k] {
      UpperSpells(ws[k], us[k]);
    }
    if SpellsEntry(ws, i) { assert us == up[..|us|]; }
    if us <= up { assert forall k :: 0 <= k < |us| ==> up[k] == us[k]; }
  }

  /** A statement that begins with the words of an entry, in any spelling and layout, has the
      operation that the entry names. */
  lemma {:induction false} EntryReached(lead: seq<Lead>, ws: seq<string>, gaps: seq<Gap>, rest: string, i: nat)
    requires (forall x :: x in lead ==> x.Legal())
    requires ws != [] && |gaps| == |ws| && PlainWords(ws) && LegalGaps(gaps) && gaps[0] == [] && !At(ws[0], 0, '-', '-')
    requires MayFollow(|ws|, rest) && i < OPS && SpellsEntry(ws, i)
    ensures Operation(LeadText(lead) + Layout(ws, Texts(gaps), rest)) == Entry(i).name
  {
    OperationIsByWords(lead, ws, gaps, rest);
    EntrySpelled(ws, i);
    TokenOpExactly(First(UpperAll(ws), 4), i);
  }

  /** One that begins with the words of none has its first word, in upper case, for operation. */
  lemma {:induction false} NoEntryReached(lead: seq<Lead>, ws: seq<string>, gaps: seq<Gap>, rest: string, u: string)
    requires (forall x :: x in lead ==> x.Legal())
    requires ws != [] && |gaps| == |ws| && PlainWords(ws) && LegalGaps(gaps) && gaps[0] == [] && !At(ws[0], 0, '-', '-')
    requires MayFollow(|ws|, rest) && Spells(ws[0], u) && forall i: nat | i < OPS :: !SpellsEntry(ws, i)
    ensures Operation(LeadText(lead) + Layout(ws, Texts(gaps), rest)) == u
  {
    OperationIsByWords(lead, ws, gaps, rest);
    var up := First(UpperAll(ws), 4);
    UpperSpells(ws[0], u);
    TokenOpExactly(up, 0);
    forall j: nat | j < OPS ensures !(Entry(j).words <= up) { EntrySpelled(ws, j); }
  }

  // ---------------------------------------------------------------- statements without words

  lemma {:induction false} LeadThen(lead: seq<Lead>, u: string)
    requires forall x :: x in lead ==> x.Legal()
    ensures StripLeading(LeadText(lead) + u) == StripLeading(u)
    decreases |lead|
  {
    if lead == [] {
      assert LeadText(lead) + u == u;
    } else {
      assert lead[0] in lead;
      LeadThen(lead[1..], u);
      LeadHead(lead, u);
      OneLead(lead[0], LeadText(lead[1..]) + u);
    }
  }

  /** A comment that does not end: a line comment without a line feed, or a block comment without
      its end mark. */
  predicate Unended(u: string) {
    (At(u, 0, '-', '-') && '\n' !in u) || (At(u, 0, '/', '*') && forall j :: 0 <= j < |u| ==> !At(u, j, '*', '/'))
  }

  lemma {:induction false} UnendedTakesAll(u: string)
    requires Unended(u)
    ensures StripLeading(u) == ""
  {
    TrimRightKeepsHead(u);
    TrimRightPrefix(u);
    var t := TrimRight(u);
    TrimShrinks(u);
    TrimRightAfter(u[..2], u[2..]);
    assert u[..2] + u[2..] == u;
    if At(u, 0, '-', '-') {
      IndexOfNone(t, '\n');
    } else {
      forall j | 0 <= j < |t| ensures !At(t, j, '*', '/') { assert !At(u, j, '*', '/'); }
      FindNone(t, '*', '/');
    }
    DropOneShrinks(t);
  }

  /** Nothing but spaces and comments, the last of which may be unended, has no operation. */
  lemma {:induction false} OnlyLead(lead: seq<Lead>, u: string)
    requires (forall x :: x in lead ==> x.Legal()) && (u == "" || Unended(u))
    ensures Operation(LeadText(lead) + u) == ""
  {
    LeadThen(lead, u);
    if u != "" { UnendedTakesAll(u); }
  }

  /** A statement that begins with a parenthesis, trimmed and without comments, is its own
      operation, in upper case. */
  lemma {:induction false} ParenthesisFirst(t: string)
    requires t != "" && t[0] == '(' && Trim(t) == t && forall j :: 0 <= j < |t| ==> !At(t, j, '/', '*')
    ensures Operation(t) == Upper(t)
  {
    FindNone(t, '/', '*');
    assert StripLeading(t) == t && Strip(t) == t;
    var u := Upper(t);
    assert u[0] == '(' && SkipBlank(u) == u;
    assert Words(u, MAX_WORDS) == Split([], u);
  }
}
