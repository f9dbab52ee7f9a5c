/** Taking comments out of SQL text before its first words are looked at. */
module SqlComments {
  import opened SqlScanner

  predicate At(s: string, i: int, a: char, b: char) { 0 <= i < |s| - 1 && s[i] == a && s[i + 1] == b }

  /** Where the two characters `a`, `b` first stand next to each other at or after `i`, or -1. */
  function FindFrom(s: string, a: char, b: char, i: nat): int
    decreases |s| - i
  {
    if i + 1 >= |s| then -1 else if At(s, i, a, b) then i else FindFrom(s, a, b, i + 1)
  }

  function Find(s: string, a: char, b: char): int { FindFrom(s, a, b, 0) }

  lemma {:induction false} FindFromFinds(s: string, a: char, b: char, i: nat)
    ensures var k := FindFrom(s, a, b, i);
      && k >= -1 && (k >= 0 ==> k >= i && At(s, k, a, b))
      && forall j :: i <= j < (if k < 0 then |s| else k) ==> !At(s, j, a, b)
    decreases |s| - i
  {
    if i + 1 < |s| && !At(s, i, a, b) { FindFromFinds(s, a, b, i + 1); }
  }

  /** The first occurrence is the only position with these two properties. */
  lemma {:induction false} FindFromIs(s: string, a: char, b: char, i: nat, k: nat)
    requires i <= k && At(s, k, a, b) && forall j :: i <= j < k ==> !At(s, j, a, b)
    ensures FindFrom(s, a, b, i) == k
  {
    FindFromFinds(s, a, b, i);
  }

  lemma {:induction false} FindFromNone(s: string, a: char, b: char, i: nat)
    requires forall j :: i <= j < |s| ==> !At(s, j, a, b)
    ensures FindFrom(s, a, b, i) == -1
  {
    FindFromFinds(s, a, b, i);
  }

  lemma {:induction false} FindFinds(s: string, a: char, b: char)
    ensures var i := Find(s, a, b);
      && i >= -1 && (i >= 0 ==> At(s, i, a, b))
      && forall j :: 0 <= j < (if i < 0 then |s| else i) ==> !At(s, j, a, b)
  {
    FindFromFinds(s, a, b, 0);
  }

  lemma {:induction false} FindIs(s: string, a: char, b: char, i: nat)
    requires At(s, i, a, b) && forall j :: 0 <= j < i ==> !At(s, j, a, b)
    ensures Find(s, a, b) == i
  {
    FindFromIs(s, a, b, 0, i);
  }

  lemma {:induction false} FindNone(s: string, a: char, b: char)
    requires forall j :: 0 <= j < |s| ==> !At(s, j, a, b)
    ensures Find(s, a, b) == -1
  {
    FindFromNone(s, a, b, 0);
  }

  /** Text put before does not change where something is found after it. */
  lemma {:induction false} FindShifts(p: string, s: string, a: char, b: char, i: nat)
    ensures var k := FindFrom(s, a, b, i); FindFrom(p + s, a, b, |p| + i) == if k < 0 then -1 else |p| + k
  {
    FindFromFinds(s, a, b, i);
    var k := FindFrom(s, a, b, i);
    forall j | |p| <= j ensures At(p + s, j, a, b) <==> At(s, j - |p|, a, b) {}
    if k < 0 { FindFromNone(p + s, a, b, |p| + i); } else { FindFromIs(p + s, a, b, |p| + i, |p| + k); }
  }

  /** Where the first closed block comment starts and ends. */
  datatype Span = NoComment | Span(start: nat, end: nat)

  function FirstComment(s: string): (c: Span)
    ensures c.Span? ==> c.start + 4 <= c.end <= |s| && At(s, c.start, '/', '*') && At(s, c.end - 2, '*', '/')
  {
    FindFinds(s, '/', '*');
    var start := Find(s, '/', '*');
    if start < 0 then NoComment
    else
      FindFromFinds(s, '*', '/', start + 2);
      var closer := FindFrom(s, '*', '/', start + 2);
      if closer < 0 then NoComment else Span(start, closer + 2)
  }

  /** One pass from the left: each closed comment becomes one space. */
  function Strip(s: string): string
    decreases |s|
  {
    var c := FirstComment(s);
    if c.NoComment? then s else s[..c.start] + " " + Strip(s[c.end..])
  }

  /** No comment starts within `p` when `s` follows it. */
  predicate Clear(p: string, s: string) { forall j :: 0 <= j < |p| ==> !At(p + s, j, '/', '*') }

  /** A text that neither holds the start of a comment nor can begin one with what follows. */
  predicate Inert(p: string) {
    p != "" && p[|p| - 1] == ' ' && forall j :: 0 <= j < |p| ==> !At(p, j, '/', '*')
  }

  lemma {:induction false} InertIsClear(p: string, s: string)
    requires Inert(p)
    ensures Clear(p, s)
  {
    forall j | 0 <= j < |p| ensures !At(p + s, j, '/', '*') { assert !At(p, j, '/', '*'); }
  }

  lemma {:induction false} CommentAfter(p: string, s: string)
    requires Clear(p, s)
    ensures FirstComment(p + s) ==
      if FirstComment(s).NoComment? then NoComment else Span(|p| + FirstComment(s).start, |p| + FirstComment(s).end)
  {
    var t := p + s;
    FindFinds(s, '/', '*');
    var i := Find(s, '/', '*');
    forall j | 0 <= j < |t| ensures At(t, j, '/', '*') <==> j >= |p| && At(s, j - |p|, '/', '*') {}
    if i < 0 {
      FindNone(t, '/', '*');
    } else {
      FindIs(t, '/', '*', |p| + i);
      FindShifts(p, s, '*', '/', i + 2);
    }
  }

  lemma {:induction false} CommentAfterInert(p: string, s: string)
    requires Inert(p)
    ensures FirstComment(p + s) ==
      if FirstComment(s).NoComment? then NoComment else Span(|p| + FirstComment(s).start, |p| + FirstComment(s).end)
  {
    InertIsClear(p, s);
    CommentAfter(p, s);
  }

  lemma {:induction false} StripUnfolds(s: string, c: Span)
    requires c == FirstComment(s)
    ensures Strip(s) == if c.NoComment? then s else s[..c.start] + " " + Strip(s[c.end..])
  {}

  lemma {:induction false} StripTo(t: string, c: Span, u: string)
    requires c.Span? && c == FirstComment(t) && u == t[c.end..]
    ensures Strip(t) == t[..c.start] + " " + Strip(u)
  {
    StripUnfolds(t, c);
  }

  /** Text in which no comment starts is kept, whatever follows it. */
  lemma {:induction false} StripAfter(p: string, s: string)
    requires Clear(p, s)
    ensures Strip(p + s) == p + Strip(s)
  {
    CommentAfter(p, s);
    var c := FirstComment(s);
    if c.Span? {
      var tail := Strip(s[c.end..]);
      StripUnfolds(s, c);
      SliceAfter(p, s, c.end);
      StripTo(p + s, Span(|p| + c.start, |p| + c.end), s[c.end..]);
      ShiftedTo(p, s, c.start, tail, Strip(s), Strip(p + s));
    }
  }

  lemma {:induction false} StripAfterInert(p: string, s: string)
    requires Inert(p)
    ensures Strip(p + s) == p + Strip(s)
  {
    InertIsClear(p, s);
    StripAfter(p, s);
  }

  /** The text of a block comment with this body is closed by its last two characters. */
  predicate ClosedBy(body: string) { Find(body + "*/", '*', '/') == |body| }

  /** A closed comment is replaced by one space, whatever follows it. */
  lemma {:induction false} StripComment(body: string, s: string)
    requires ClosedBy(body)
    ensures Strip("/*" + body + "*/" + s) == " " + Strip(s)
  {
    var t := "/*" + body + "*/" + s;
    CommentEnds(body, s);
    FindIs(t, '/', '*', 0);
    StripUnfolds(t, Span(0, |body| + 4));
    assert t[|body| + 4..] == s && t[..0] == "";
  }

  lemma {:induction false} CommentEnds(body: string, s: string)
    requires ClosedBy(body)
    ensures FindFrom("/*" + body + "*/" + s, '*', '/', 2) == |body| + 2
  {
    var t := "/*" + body + "*/" + s;
    FindFinds(body + "*/", '*', '/');
    forall j | 2 <= j < |body| + 2 ensures !At(t, j, '*', '/') { assert !At(body + "*/", j - 2, '*', '/'); }
    FindFromIs(t, '*', '/', 2, |body| + 2);
  }

  lemma {:induction false} ShiftedTo(p: string, s: string, i: nat, tail: string, short: string, long: string)
    requires i <= |s| && short == s[..i] + " " + tail && long == (p + s)[..|p| + i] + " " + tail
    ensures long == p + short
  {
    Shifted(p, s, i, tail);
  }

  lemma {:induction false} Shifted(p: string, s: string, i: nat, tail: string)
    requires i <= |s|
    ensures (p + s)[..|p| + i] + " " + tail == p + (s[..i] + " " + tail)
  {
    SliceAfter(p, s, i);
    Regroup3(p, s[..i], " ", tail);
  }

  lemma {:induction false} SliceAfter(p: string, s: string, i: nat)
    requires i <= |s|
    ensures (p + s)[..|p| + i] == p + s[..i] && (p + s)[|p| + i..] == s[i..]
  {}

  lemma {:induction false} Regroup3(a: string, b: string, c: string, d: string)
    ensures (a + b) + c + d == a + (b + c + d)
  {}

  lemma {:induction false} HeadIsInert(s: string)
    requires FirstComment(s).Span?
    ensures Inert(s[..FirstComment(s).start] + " ")
  {
    FindFinds(s, '/', '*');
    var start := Find(s, '/', '*');
    var p := s[..start] + " ";
    forall j | 0 <= j < |p| ensures !At(p, j, '/', '*') {
      if j < start - 1 { assert !At(s, j, '/', '*'); }
    }
  }

  /** The loop of the source, which starts over from the left after each removal. It is the
      single pass: replacing a comment by a space never makes a new one out of its
      surroundings. */
  method StripAllBlockComments(text: string) returns (s: string)
    ensures s == Strip(text) && FirstComment(s).NoComment?
  {
    s := text;
    while FirstComment(s).Span?
      invariant Strip(s) == Strip(text)
      decreases |s|
    {
      var c := FirstComment(s);
      HeadIsInert(s);
      StripAfterInert(s[..c.start] + " ", s[c.end..]);
      s := s[..c.start] + " " + s[c.end..];
    }
  }

  /** Nothing closed is left, so that stripping again changes nothing. */
  lemma {:induction false} StripIsComplete(s: string)
    ensures FirstComment(Strip(s)).NoComment? && Strip(Strip(s)) == Strip(s)
    decreases |s|
  {
    var c := FirstComment(s);
    if c.Span? {
      HeadIsInert(s);
      StripIsComplete(s[c.end..]);
      CommentAfterInert(s[..c.start] + " ", Strip(s[c.end..]));
    }
  }

  /** Stripping leaves what stands before the first comment. */
  lemma {:induction false} StripKeepsHead(s: string)
    requires s != "" && !At(s, 0, '/', '*')
    ensures Strip(s) != "" && Strip(s)[0] == s[0]
  {
    FindFinds(s, '/', '*');
    if FirstComment(s).Span? {
      assert At(s, FirstComment(s).start, '/', '*');
    }
  }

  // ---------------------------------------------------------------- leading comments

  function IndexOf(s: string, c: char): int {
    if s == "" then -1 else if s[0] == c then 0 else
      var i := IndexOf(s[1..], c);
      if i < 0 then -1 else i + 1
  }

  lemma {:induction false} IndexOfFits(s: string, c: char)
    ensures -1 <= IndexOf(s, c) < |s|
  {
    if s != "" && s[0] != c { IndexOfFits(s[1..], c); }
  }

  /** What is left after one leading comment; a comment that does not end takes all. */
  function DropOne(s: string): string
    requires At(s, 0, '-', '-') || At(s, 0, '/', '*')
  {
    IndexOfFits(s, '\n');
    FindFinds(s, '*', '/');
    if At(s, 0, '-', '-') then
      if IndexOf(s, '\n') >= 0 then s[IndexOf(s, '\n') + 1..] else ""
    else if Find(s, '*', '/') >= 0 then s[Find(s, '*', '/') + 2..] else ""
  }

  lemma {:induction false} DropOneShrinks(s: string)
    requires At(s, 0, '-', '-') || At(s, 0, '/', '*')
    ensures |DropOne(s)| < |s|
  {
    IndexOfFits(s, '\n');
    FindFinds(s, '*', '/');
  }

  lemma {:induction false} TrimShrinks(s: string)
    ensures |Trim(s)| <= |s|
  {
    TrimLeftSuffix(s);
    TrimRightPrefix(TrimLeft(s));
  }

  function StripLeading(s: string): string
    decreases |s|
  {
    TrimShrinks(s);
    var t := Trim(s);
    if At(t, 0, '-', '-') || At(t, 0, '/', '*') then DropOneShrinks(t); StripLeading(DropOne(t)) else t
  }

  method StripLeadingComments(text: string) returns (s: string)
    ensures s == StripLeading(text)
  {
    s := text;
    while true
      invariant StripLeading(s) == StripLeading(text)
      decreases |s|
    {
      TrimShrinks(s);
      TrimTwice(s);
      s := Trim(s);
      if s == "" { return; }
      if At(s, 0, '-', '-') || At(s, 0, '/', '*') {
        DropOneShrinks(s);
        IndexOfFits(s, '\n');
        FindFinds(s, '*', '/');
        if At(s, 0, '-', '-') {
          if IndexOf(s, '\n') < 0 { return ""; }
          s := s[IndexOf(s, '\n') + 1..];
        } else {
          if Find(s, '*', '/') < 0 { return ""; }
          s := s[Find(s, '*', '/') + 2..];
        }
      } else {
        return;
      }
    }
  }

  /** The result is trimmed and starts with no comment. */
  lemma {:induction false} StripLeadingIsBare(s: string)
    ensures var t := StripLeading(s);
      Trim(t) == t && !At(t, 0, '-', '-') && !At(t, 0, '/', '*') && (t != "" ==> !IsSpace(t[0]))
    decreases |s|
  {
    TrimShrinks(s);
    TrimTwice(s);
    var t := Trim(s);
    if At(t, 0, '-', '-') || At(t, 0, '/', '*') {
      DropOneShrinks(t);
      StripLeadingIsBare(DropOne(t));
    }
  }

  /** The end of a leading block comment is looked for from its very start, so that the star
      of the opening can close it. What is left is what follows the comment that stands there
      (nothing, if it is not closed) if and only if the text does not begin with slash, star,
      slash and one more character. */
  lemma {:induction false} LeadingCommentExactly(s: string)
    requires At(s, 0, '/', '*')
    ensures var c := FirstComment(s);
      DropOne(s) == (if c.Span? then s[c.end..] else "") <==> !(|s| > 3 && s[2] == '/')
  {
    FindIs(s, '/', '*', 0);
    FindFromFinds(s, '*', '/', 2);
    if |s| >= 3 && s[2] == '/' {
      FindIs(s, '*', '/', 1);
      assert DropOne(s) == s[3..];
    } else {
      assert FindFrom(s, '*', '/', 0) == FindFrom(s, '*', '/', 1) == FindFrom(s, '*', '/', 2);
    }
  }

  /** The family that fails: whatever follows the three characters is kept, commented out
      or not. */
  lemma {:induction false} SlashStarSlash(x: string)
    ensures At("/*/" + x, 0, '/', '*') && DropOne("/*/" + x) == x
  {
    var s := "/*/" + x;
    FindIs(s, '*', '/', 1);
    assert s[3..] == x;
  }
}
