/** Naming the operation of a SQL statement from its first words. The matcher of the source
    works on strings; it is shown to be a matcher on words. */
module SqlOperations {
  import opened SqlScanner
  import opened SqlComments

  const MAX_WORDS := 4

  predicate IsBlank(c: char) { c == ' ' || c == '\t' || c == '\n' || c == '\r' }

  /** A character that ends a word. */
  predicate Ends(c: char) { IsBlank(c) || c == '(' }

  function SkipBlank(s: string): string { if s != "" && IsBlank(s[0]) then SkipBlank(s[1..]) else s }

  function WordLength(s: string): (n: nat)
    ensures n <= |s|
  {
    if s == "" || Ends(s[0]) then 0 else 1 + WordLength(s[1..])
  }

  function Word(s: string): string { s[..WordLength(s)] }

  /** Up to `k` words from the front of `s`, and the text after them. An open parenthesis
      where a word should start ends the words. */
  datatype Split = Split(words: seq<string>, rest: string)

  function Words(s: string, k: nat): Split
    decreases k
  {
    if k == 0 then Split([], s)
    else
      var t := SkipBlank(s);
      if t == "" || t[0] == '(' then Split([], t)
      else
        var more := Words(t[WordLength(t)..], k - 1);
        Split([Word(t)] + more.words, more.rest)
  }

  function Join(ws: seq<string>): string {
    if ws == [] then "" else if |ws| == 1 then ws[0] else ws[0] + " " + Join(ws[1..])
  }

  // ---------------------------------------------------------------- the loop of the source

  lemma {:induction false} SkipBlankAt(s: string, i: nat)
    requires i < |s| && IsBlank(s[i])
    ensures SkipBlank(s[i..]) == SkipBlank(s[i + 1..])
  {
    assert s[i..][1..] == s[i + 1..];
  }

  lemma {:induction false} TakeWord(words: seq<string>, s: string, start: nat, end: nat, k: nat)
    requires start <= end <= |s| && k > 0 && start < |s| && s[start] != '('
    requires SkipBlank(s[start..]) == s[start..] && end - start == WordLength(s[start..])
    ensures var all, more := Words(s[start..], k), Words(s[end..], k - 1);
      words + all.words == (words + [s[start..end]]) + more.words && all.rest == more.rest
  {
    var t := s[start..];
    assert s[start..end] == Word(t) && s[end..] == t[WordLength(t)..];
  }

  lemma {:induction false} NoMoreWords(words: seq<string>, s: string, i: nat, k: nat)
    requires i <= |s| && (k == 0 || i == |s|)
    ensures Words(s[i..], k) == Split([], s[i..]) && words + Words(s[i..], k).words == words
  {}

  /** Normalises the first words of `s`: joined by single spaces, followed by the rest. */
  method NormalizeWhitespacePrefix(s: string, maxWords: nat) returns (result: string)
    ensures result == Join(Words(s, maxWords).words) + Words(s, maxWords).rest
  {
    var words: seq<string> := [];
    var i := 0;
    ghost var whole := Words(s, maxWords);
    assert s[0..] == s && [] + whole.words == whole.words;
    var stopped := false;
    while !stopped && |words| < maxWords && i < |s|
      invariant 0 <= i <= |s| && |words| <= maxWords
      invariant stopped ==> whole == Split(words, s[i..])
      invariant !stopped ==>
        var more := Words(s[i..], maxWords - |words|); whole == Split(words + more.words, more.rest)
      decreases if stopped then 0 else 1, |s| - i, maxWords - |words|
    {
      i := SkipFrom(s, i);
      ghost var t := s[i..];
      assert SkipBlank(t) == t;
      if i >= |s| || s[i] == '(' {
        assert words + [] == words;
        stopped := true;
      } else {
        var start := i;
        i := WordEnd(s, i);
        TakeWord(words, s, start, i, maxWords - |words|);
        words := words + [s[start..i]];
      }
    }
    if !stopped { NoMoreWords(words, s, i, maxWords - |words|); }
    assert whole == Split(words, s[i..]);
    result := Join(words);
    if i < |s| {
      result := result + s[i..];
    } else {
      assert s[i..] == "" && result + "" == result;
    }
  }

  method SkipFrom(s: string, from: nat) returns (i: nat)
    requires from <= |s|
    ensures from <= i <= |s| && s[i..] == SkipBlank(s[from..]) && (i < |s| ==> !IsBlank(s[i]))
  {
    i := from;
    while i < |s| && IsBlank(s[i])
      invariant from <= i <= |s| && SkipBlank(s[i..]) == SkipBlank(s[from..])
    {
      SkipBlankAt(s, i);
      i := i + 1;
    }
  }

  method WordEnd(s: string, from: nat) returns (i: nat)
    requires from < |s| && !Ends(s[from])
    ensures from < i <= |s| && i == from + WordLength(s[from..])
  {
    i := from;
    while i < |s| && !Ends(s[i])
      invariant from <= i <= |s| && i + WordLength(s[i..]) == from + WordLength(s[from..])
      invariant i == from ==> i < |s| && !Ends(s[i])
    {
      assert s[i..][1..] == s[i + 1..];
      i := i + 1;
    }
  }

  // ---------------------------------------------------------------- the table

  datatype Op = Op(words: seq<string>, name: string)

  const OPS := 34

  /** Multi-word operations, in the order of the source. */
  function Entry(i: nat): Op
    requires i < OPS
  {
    if i == 0 then Op(["SUBMIT", "TASK"], "SUBMIT_TASK")
    else if i == 1 then Op(["INSERT", "OVERWRITE"], "INSERT_OVERWRITE")
    else if i == 2 then Op(["REFRESH", "MATERIALIZED", "VIEW"], "REFRESH_MATERIALIZED_VIEW")
    else if i == 3 then Op(["CREATE", "MATERIALIZED", "VIEW"], "CREATE_MATERIALIZED_VIEW")
    else if i == 4 then Op(["DROP", "MATERIALIZED", "VIEW"], "DROP_MATERIALIZED_VIEW")
    else if i == 5 then Op(["ALTER", "MATERIALIZED", "VIEW"], "ALTER_MATERIALIZED_VIEW")
    else if i == 6 then Op(["CANCEL", "LOAD"], "CANCEL_LOAD")
    else if i == 7 then Op(["SHOW", "LOAD"], "SHOW_LOAD")
    else if i == 8 then Op(["BROKER", "LOAD"], "BROKER_LOAD")
    else if i == 9 then Op(["ROUTINE", "LOAD"], "ROUTINE_LOAD")
    else if i == 10 then Op(["ADMIN", "SET"], "ADMIN_SET")
    else if i == 11 then Op(["ADMIN", "SHOW"], "ADMIN_SHOW")
    else if i == 12 then Op(["ADMIN", "CHECK"], "ADMIN_CHECK")
    else if i == 13 then Op(["ADMIN", "REPAIR"], "ADMIN_REPAIR")
    else if i == 14 then Op(["SET", "CATALOG"], "SET_CATALOG")
    else if i == 15 then Op(["INSERT", "INTO"], "INSERT")
    else if i == 16 then Op(["CREATE", "TABLE"], "CREATE_TABLE")
    else if i == 17 then Op(["CREATE", "EXTERNAL", "TABLE"], "CREATE_TABLE")
    else if i == 18 then Op(["CREATE", "VIEW"], "CREATE_VIEW")
    else if i == 19 then Op(["CREATE", "DATABASE"], "CREATE_DATABASE")
    else if i == 20 then Op(["CREATE", "INDEX"], "CREATE_INDEX")
    else if i == 21 then Op(["ALTER", "TABLE"], "ALTER_TABLE")
    else if i == 22 then Op(["ALTER", "DATABASE"], "ALTER_DATABASE")
    else if i == 23 then Op(["DROP", "TABLE"], "DROP_TABLE")
    else if i == 24 then Op(["DROP", "VIEW"], "DROP_VIEW")
    else if i == 25 then Op(["DROP", "DATABASE"], "DROP_DATABASE")
    else if i == 26 then Op(["DROP", "INDEX"], "DROP_INDEX")
    else if i == 27 then Op(["TRUNCATE", "TABLE"], "TRUNCATE")
    else if i == 28 then Op(["ANALYZE", "TABLE"], "ANALYZE")
    else if i == 29 then Op(["SHOW", "TABLES"], "SHOW")
    else if i == 30 then Op(["SHOW", "DATABASES"], "SHOW")
    else if i == 31 then Op(["SHOW", "CREATE"], "SHOW")
    else if i == 32 then Op(["SHOW", "COLUMNS"], "SHOW")
    else Op(["SHOW", "PROCESSLIST"], "SHOW")
  }

  /** A word: not empty, and nothing in it ends a word. */
  predicate Solid(w: string) { w != "" && forall i :: 0 <= i < |w| ==> !Ends(w[i]) }

  /** Which entry two first words can belong to, told by a few of their letters. */
  function Bucket(first: string, second: string): (i: nat)
    requires |first| >= 2 && |second| >= 1
    ensures i < OPS
  {
    var a, b, c, n := first[0], first[1], second[0], |second|;
    if a == 'S' && b == 'U' then 0
    else if a == 'I' && b == 'N' then (if c == 'O' && n == 9 then 1 else 15)
    else if a == 'R' && b == 'E' then 2
    else if a == 'C' && b == 'R' then
      (if c == 'M' && n == 12 then 3
       else if c == 'T' && n == 5 then 16
       else if c == 'E' && n == 8 then 17
       else if c == 'V' && n == 4 then 18
       else if c == 'D' && n == 8 then 19
       else 20)
    else if a == 'D' && b == 'R' then
      (if c == 'M' && n == 12 then 4
       else if c == 'T' && n == 5 then 23
       else if c == 'V' && n == 4 then 24
       else if c == 'D' && n == 8 then 25
       else 26)
    else if a == 'A' && b == 'L' then (if c == 'M' && n == 12 then 5 else if c == 'T' && n == 5 then 21 else 22)
    else if a == 'C' && b == 'A' then 6
    else if a == 'S' && b == 'H' then
      (if c == 'L' && n == 4 then 7
       else if c == 'T' && n == 6 then 29
       else if c == 'D' && n == 9 then 30
       else if c == 'C' && n == 6 then 31
       else if c == 'C' && n == 7 then 32
       else 33)
    else if a == 'B' && b == 'R' then 8
    else if a == 'R' && b == 'O' then 9
    else if a == 'A' && b == 'D' then
      (if c == 'S' && n == 3 then 10
       else if c == 'S' && n == 4 then 11
       else if c == 'C' && n == 5 then 12
       else 13)
    else if a == 'S' && b == 'E' then 14
    else if a == 'T' && b == 'R' then 27
    else if a == 'A' && b == 'N' then 28
    else 0
  }

  /** An entry has two or three words, and its first two words tell it from all others. */
  predicate ToldApart(i: nat)
    requires i < OPS
  {
    var ws := Entry(i).words;
    2 <= |ws| <= 3 && |ws[0]| >= 2 && |ws[1]| >= 1 && Bucket(ws[0], ws[1]) == i
  }

  // The table is checked a few entries at a time, to keep each proof small.

  lemma {:induction false} EntryShapeA(i: nat)
    requires i < 12
    ensures ToldApart(i)
  {}

  lemma {:induction false} EntryShapeB(i: nat)
    requires 12 <= i < 23
    ensures ToldApart(i)
  {}

  lemma {:induction false} EntryShapeC(i: nat)
    requires 23 <= i < 34
    ensures ToldApart(i)
  {}

  lemma {:induction false} EntryShape(i: nat)
    requires i < OPS
    ensures ToldApart(i)
  {
    if i < 12 { EntryShapeA(i); } else if i < 23 { EntryShapeB(i); } else { EntryShapeC(i); }
  }

  lemma {:induction false} EntrySolidA(i: nat)
    requires i < 5
    ensures forall j :: 0 <= j < |Entry(i).words| ==> Solid(Entry(i).words[j])
  {}

  lemma {:induction false} EntrySolidB(i: nat)
    requires 5 <= i < 10
    ensures forall j :: 0 <= j < |Entry(i).words| ==> Solid(Entry(i).words[j])
  {}

  lemma {:induction false} EntrySolidC(i: nat)
    requires 10 <= i < 16
    ensures forall j :: 0 <= j < |Entry(i).words| ==> Solid(Entry(i).words[j])
  {}

  lemma {:induction false} EntrySolidD(i: nat)
    requires 16 <= i < 22
    ensures forall j :: 0 <= j < |Entry(i).words| ==> Solid(Entry(i).words[j])
  {}

  lemma {:induction false} EntrySolidE(i: nat)
    requires 22 <= i < 28
    ensures forall j :: 0 <= j < |Entry(i).words| ==> Solid(Entry(i).words[j])
  {}

  lemma {:induction false} EntrySolidF(i: nat)
    requires 28 <= i < 34
    ensures forall j :: 0 <= j < |Entry(i).words| ==> Solid(Entry(i).words[j])
  {}

  lemma {:induction false} EntrySolid(i: nat)
    requires i < OPS
    ensures forall j :: 0 <= j < |Entry(i).words| ==> Solid(Entry(i).words[j])
  {
    if i < 5 { EntrySolidA(i); } else if i < 10 { EntrySolidB(i); } else if i < 16 { EntrySolidC(i); }
    else if i < 22 { EntrySolidD(i); } else if i < 28 { EntrySolidE(i); } else { EntrySolidF(i); }
  }

  /** The words of at most one entry can begin a statement, so that the order of the table
      does not matter. */
  lemma {:induction false} AtMostOneEntry(i: nat, j: nat, ws: seq<string>)
    requires i < OPS && j < OPS && Entry(i).words <= ws && Entry(j).words <= ws
    ensures i == j
  {
    EntryShape(i);
    EntryShape(j);
    assert Entry(i).words[0] == ws[0] == Entry(j).words[0] && Entry(i).words[1] == ws[1] == Entry(j).words[1];
  }

  // ---------------------------------------------------------------- strings and words

  lemma {:induction false} WordIsSolid(s: string)
    requires s != "" && !Ends(s[0])
    ensures Solid(Word(s)) && (WordLength(s) == |s| || Ends(s[WordLength(s)]))
    decreases |s|
  {
    var t := s[1..];
    if t != "" && !Ends(t[0]) {
      WordIsSolid(t);
      assert Word(s) == [s[0]] + Word(t);
    } else {
      assert Word(s) == [s[0]];
    }
  }

  lemma {:induction false} SkipBlankStops(s: string)
    ensures SkipBlank(s) != "" ==> !IsBlank(SkipBlank(s)[0])
  {
    if s != "" && IsBlank(s[0]) { SkipBlankStops(s[1..]); }
  }

  predicate AllSolid(ws: seq<string>) { forall j :: 0 <= j < |ws| ==> Solid(ws[j]) }

  /** What the words and the rest look like. */
  predicate Shaped(r: Split, k: nat) {
    && |r.words| <= k && AllSolid(r.words)
    && (r.rest == "" || r.rest[0] == '(' || |r.words| == k)
  }

  lemma {:induction false} WordsShape(s: string, k: nat)
    ensures Shaped(Words(s, k), k)
    decreases k
  {
    if k > 0 {
      var t := SkipBlank(s);
      SkipBlankStops(s);
      if t != "" && t[0] != '(' {
        WordIsSolid(t);
        WordsShape(t[WordLength(t)..], k - 1);
      }
    }
  }

  /** The string test of the source: a prefix followed by the end, a space or a parenthesis. */
  predicate StringMatch(n: string, p: string) {
    p <= n && (|n| == |p| || n[|p|] == ' ' || n[|p|] == '(')
  }

  /** What follows the first word. */
  function Tail(ws: seq<string>, rest: string): string
    requires ws != []
  {
    if |ws| == 1 then rest else " " + (Join(ws[1..]) + rest)
  }

  lemma {:induction false} JoinHead(ws: seq<string>, rest: string)
    requires ws != []
    ensures Join(ws) + rest == ws[0] + Tail(ws, rest)
  {
    if |ws| > 1 { assert (ws[0] + " " + Join(ws[1..])) + rest == ws[0] + (" " + (Join(ws[1..]) + rest)); }
  }

  lemma {:induction false} SameLength(a: string, x: string, b: string, y: string)
    requires Solid(a) && Solid(b) && (x == "" || x[0] == ' ' || x[0] == '(') && (y == "" || y[0] == ' ')
    requires StringMatch(a + x, b + y)
    ensures |a| == |b|
  {
    assert forall i :: 0 <= i < |a| ==> (a + x)[i] == a[i];
    assert forall i :: 0 <= i < |b| ==> (b + y)[i] == b[i];
    assert y != "" ==> (b + y)[|b|] == ' ';
    assert x != "" ==> (a + x)[|a|] == x[0];
  }

  /** Two texts that start with a word each: one matches the other exactly when the words are
      the same and the rest matches. */
  lemma {:induction false} HeadsMatch(a: string, x: string, b: string, y: string)
    requires Solid(a) && Solid(b) && (x == "" || x[0] == ' ' || x[0] == '(') && (y == "" || y[0] == ' ')
    ensures StringMatch(a + x, b + y) <==> a == b && StringMatch(x, y)
  {
    var n, p := a + x, b + y;
    if StringMatch(n, p) {
      SameLength(a, x, b, y);
      assert n[..|a|] == a && p[..|b|] == b;
      assert n[..|p|] == p;
      assert x[..|y|] == n[|a|..|a| + |y|] == p[|b|..] == y;
    }
    if a == b && StringMatch(x, y) {
      assert n[..|p|] == a + x[..|y|];
    }
  }

  lemma {:induction false} SpaceMatch(x: string, y: string)
    ensures StringMatch(" " + x, " " + y) <==> StringMatch(x, y)
  {
    if StringMatch(" " + x, " " + y) {
      assert (" " + x)[..|y| + 1] == " " + y;
      assert x[..|y|] == (" " + x)[1..|y| + 1] == y;
    }
    if StringMatch(x, y) { assert (" " + x)[..|y| + 1] == " " + x[..|y|]; }
  }

  /** The string test is the word test: an entry matches the normalised text exactly when its
      words are the first words. */
  lemma {:induction false} MatchIsByWords(pw: seq<string>, ws: seq<string>, rest: string)
    requires pw != [] && ws != [] && AllSolid(pw) && AllSolid(ws)
    requires |pw| < |ws| || rest == "" || rest[0] == '('
    ensures StringMatch(Join(ws) + rest, Join(pw)) <==> pw <= ws
    decreases |pw|
  {
    JoinHead(ws, rest);
    JoinHead(pw, "");
    assert Join(pw) + "" == Join(pw);
    var x, y := Tail(ws, rest), Tail(pw, "");
    HeadsMatch(ws[0], x, pw[0], y);
    PrefixHead(pw, ws);
    if |pw| > 1 {
      var more := Join(pw[1..]);
      assert y == " " + more by { assert more + "" == more; }
      if |ws| > 1 {
        MatchIsByWords(pw[1..], ws[1..], rest);
        SpaceMatch(Join(ws[1..]) + rest, more);
      }
    }
  }

  lemma {:induction false} PrefixHead(pw: seq<string>, ws: seq<string>)
    requires pw != [] && ws != []
    ensures pw <= ws <==> pw[0] == ws[0] && pw[1..] <= ws[1..]
  {
    assert pw == [pw[0]] + pw[1..] && ws == [ws[0]] + ws[1..];
  }

  // ---------------------------------------------------------------- the operation

  function UpperChar(c: char): char { if 'a' <= c <= 'z' then c - 32 as char else c }

  function Upper(s: string): string { seq(|s|, i requires 0 <= i < |s| => UpperChar(s[i])) }

  /** The operation that a list of words begins. */
  function TokenOp(ws: seq<string>): string
    requires ws != []
  {
    if |ws| >= 2 && |ws[0]| >= 2 && |ws[1]| >= 1 && Entry(Bucket(ws[0], ws[1])).words <= ws
    then Entry(Bucket(ws[0], ws[1])).name
    else ws[0]
  }

  /** It is the name of the entry whose words come first, or else the first word. */
  lemma {:induction false} TokenOpExactly(ws: seq<string>, i: nat)
    requires ws != [] && i < OPS
    ensures Entry(i).words <= ws ==> TokenOp(ws) == Entry(i).name
    ensures TokenOp(ws) == ws[0] || exists j: nat | j < OPS :: Entry(j).words <= ws && TokenOp(ws) == Entry(j).name
  {
    EntryShape(i);
    if Entry(i).words <= ws {
      assert Entry(i).words[0] == ws[0] && Entry(i).words[1] == ws[1];
    }
  }

  function Underscored(ws: seq<string>): string
    requires 2 <= |ws| <= 3
  {
    ws[0] + "_" + ws[1] + if |ws| == 3 then "_" + ws[2] else ""
  }

  /** How an operation is called: by its words joined by underscores, but for the plain INSERT,
      TRUNCATE, ANALYZE and the five SHOWs, which are called by their first word, and external
      tables, which are tables. */
  predicate NamedWell(i: nat)
    requires i < OPS && 2 <= |Entry(i).words| <= 3
  {
    var ws, name := Entry(i).words, Entry(i).name;
    if ws[1] == "EXTERNAL" then name == "CREATE_TABLE"
    else if ws[1] == "INTO" || ws[0] == "TRUNCATE" || ws[0] == "ANALYZE" || (ws[0] == "SHOW" && ws[1] != "LOAD") then
      name == ws[0]
    else name == Underscored(ws)
  }

  lemma {:induction false} EntryNamedA(i: nat)
    requires i < 2
    ensures 2 <= |Entry(i).words| <= 3 && NamedWell(i)
  {}

  lemma {:induction false} EntryNamedB(i: nat)
    requires i == 2
    ensures 2 <= |Entry(i).words| <= 3 && NamedWell(i)
  {}

  lemma {:induction false} EntryNamedC(i: nat)
    requires i == 3
    ensures 2 <= |Entry(i).words| <= 3 && NamedWell(i)
  {}

  lemma {:induction false} EntryNamedD(i: nat)
    requires i == 4
    ensures 2 <= |Entry(i).words| <= 3 && NamedWell(i)
  {}

  lemma {:induction false} EntryNamedE(i: nat)
    requires i == 5
    ensures 2 <= |Entry(i).words| <= 3 && NamedWell(i)
  {}

  lemma {:induction false} EntryNamedF(i: nat)
    requires 6 <= i < 10
    ensures 2 <= |Entry(i).words| <= 3 && NamedWell(i)
  {}

  lemma {:induction false} EntryNamedG(i: nat)
    requires 10 <= i < 14
    ensures 2 <= |Entry(i).words| <= 3 && NamedWell(i)
  {}

  lemma {:induction false} EntryNamedH(i: nat)
    requires 14 <= i < 17
    ensures 2 <= |Entry(i).words| <= 3 && NamedWell(i)
  {}

  lemma {:induction false} EntryNamedI(i: nat)
    requires 17 <= i < 20
    ensures 2 <= |Entry(i).words| <= 3 && NamedWell(i)
  {}

  lemma {:induction false} EntryNamedJ(i: nat)
    requires 20 <= i < 24
    ensures 2 <= |Entry(i).words| <= 3 && NamedWell(i)
  {}

  lemma {:induction false} EntryNamedK(i: nat)
    requires 24 <= i < 28
    ensures 2 <= |Entry(i).words| <= 3 && NamedWell(i)
  {}

  lemma {:induction false} EntryNamedL(i: nat)
    requires 28 <= i < 31
    ensures 2 <= |Entry(i).words| <= 3 && NamedWell(i)
  {}

  lemma {:induction false} EntryNamedM(i: nat)
    requires 31 <= i < 34
    ensures 2 <= |Entry(i).words| <= 3 && NamedWell(i)
  {}

  lemma {:induction false} EntryNamed(i: nat)
    requires i < OPS
    ensures 2 <= |Entry(i).words| <= 3 && NamedWell(i)
  {
    if i < 2 { EntryNamedA(i); }
    if i == 2 { EntryNamedB(i); }
    if i == 3 { EntryNamedC(i); }
    if i == 4 { EntryNamedD(i); }
    if i == 5 { EntryNamedE(i); }
    if 6 <= i < 10 { EntryNamedF(i); }
    if 10 <= i < 14 { EntryNamedG(i); }
    if 14 <= i < 17 { EntryNamedH(i); }
    if 17 <= i < 20 { EntryNamedI(i); }
    if 20 <= i < 24 { EntryNamedJ(i); }
    if 24 <= i < 28 { EntryNamedK(i); }
    if 28 <= i < 31 { EntryNamedL(i); }
    if 31 <= i { EntryNamedM(i); }
  }

  lemma {:induction false} EntryGives(i: nat, ws: seq<string>)
    requires i < OPS && Entry(i).words <= ws
    ensures ws != [] && TokenOp(ws) == Entry(i).name
  {
    EntryShape(i);
    TokenOpExactly(ws, i);
  }

  /** Operations promised by name, whatever words follow. */
  lemma {:induction false} PromisedInserts(more: seq<string>)
    ensures TokenOp(["INSERT", "OVERWRITE"] + more) == "INSERT_OVERWRITE"
    ensures TokenOp(["INSERT", "INTO"] + more) == "INSERT"
    ensures TokenOp(["SUBMIT", "TASK"] + more) == "SUBMIT_TASK"
    ensures TokenOp(["SET", "CATALOG"] + more) == "SET_CATALOG"
  {
    EntryGives(1, ["INSERT", "OVERWRITE"] + more);
    EntryGives(15, ["INSERT", "INTO"] + more);
    EntryGives(0, ["SUBMIT", "TASK"] + more);
    EntryGives(14, ["SET", "CATALOG"] + more);
  }

  lemma {:induction false} PromisedTables(more: seq<string>)
    ensures TokenOp(["CREATE", "TABLE"] + more) == "CREATE_TABLE"
    ensures TokenOp(["DROP", "TABLE"] + more) == "DROP_TABLE"
    ensures TokenOp(["ALTER", "TABLE"] + more) == "ALTER_TABLE"
  {
    EntryGives(16, ["CREATE", "TABLE"] + more);
    EntryGives(23, ["DROP", "TABLE"] + more);
    EntryGives(21, ["ALTER", "TABLE"] + more);
  }

  lemma {:induction false} PromisedUpkeep(more: seq<string>)
    ensures TokenOp(["TRUNCATE", "TABLE"] + more) == "TRUNCATE"
    ensures TokenOp(["ANALYZE", "TABLE"] + more) == "ANALYZE"
  {
    EntryGives(27, ["TRUNCATE", "TABLE"] + more);
    EntryGives(28, ["ANALYZE", "TABLE"] + more);
  }

  lemma {:induction false} PromisedViews(more: seq<string>)
    ensures TokenOp(["CREATE", "MATERIALIZED", "VIEW"] + more) == "CREATE_MATERIALIZED_VIEW"
    ensures TokenOp(["REFRESH", "MATERIALIZED", "VIEW"] + more) == "REFRESH_MATERIALIZED_VIEW"
    ensures TokenOp(["DROP", "MATERIALIZED", "VIEW"] + more) == "DROP_MATERIALIZED_VIEW"
    ensures TokenOp(["ALTER", "MATERIALIZED", "VIEW"] + more) == "ALTER_MATERIALIZED_VIEW"
  {
    EntryGives(3, ["CREATE", "MATERIALIZED", "VIEW"] + more);
    EntryGives(2, ["REFRESH", "MATERIALIZED", "VIEW"] + more);
    EntryGives(4, ["DROP", "MATERIALIZED", "VIEW"] + more);
    EntryGives(5, ["ALTER", "MATERIALIZED", "VIEW"] + more);
  }

  lemma {:induction false} PromisedAdmin(more: seq<string>)
    ensures TokenOp(["ADMIN", "SHOW"] + more) == "ADMIN_SHOW"
    ensures TokenOp(["ADMIN", "SET"] + more) == "ADMIN_SET"
    ensures TokenOp(["BROKER", "LOAD"] + more) == "BROKER_LOAD"
    ensures TokenOp(["SHOW", "TABLES"] + more) == "SHOW"
  {
    EntryGives(11, ["ADMIN", "SHOW"] + more);
    EntryGives(10, ["ADMIN", "SET"] + more);
    EntryGives(8, ["BROKER", "LOAD"] + more);
    EntryGives(29, ["SHOW", "TABLES"] + more);
  }

  lemma {:induction false} PromisedShows(more: seq<string>)
    ensures TokenOp(["SHOW", "DATABASES"] + more) == "SHOW"
    ensures TokenOp(["SHOW", "CREATE"] + more) == "SHOW"
    ensures TokenOp(["SHOW", "COLUMNS"] + more) == "SHOW"
    ensures TokenOp(["SHOW", "PROCESSLIST"] + more) == "SHOW"
  {
    EntryGives(30, ["SHOW", "DATABASES"] + more);
    EntryGives(31, ["SHOW", "CREATE"] + more);
    EntryGives(32, ["SHOW", "COLUMNS"] + more);
    EntryGives(33, ["SHOW", "PROCESSLIST"] + more);
  }

  lemma {:induction false} PromisedExternal(more: seq<string>)
    ensures TokenOp(["CREATE", "EXTERNAL", "TABLE"] + more) == "CREATE_TABLE"
  {
    EntryGives(17, ["CREATE", "EXTERNAL", "TABLE"] + more);
  }

  /** A statement without its comments, in upper case. */
  function Core(stmt: string): string { Upper(Strip(Trim(StripLeading(stmt)))) }

  function Operation(stmt: string): string {
    if Trim(StripLeading(stmt)) == "" then ""
    else OpOf(Words(Core(stmt), MAX_WORDS))
  }

  function IndexAny(n: string): int {
    if n == "" then -1 else if n[0] == ' ' || n[0] == '(' then 0 else
      var i := IndexAny(n[1..]);
      if i < 0 then -1 else i + 1
  }

  lemma {:induction false} IndexAnyAfterWord(a: string, x: string)
    requires (forall i :: 0 <= i < |a| ==> !Ends(a[i])) && (x == "" || x[0] == ' ' || x[0] == '(')
    ensures IndexAny(a + x) == if x == "" then -1 else |a|
    decreases |a|
  {
    if a == "" {
      assert a + x == x;
    } else {
      assert (a + x)[1..] == a[1..] + x;
      IndexAnyAfterWord(a[1..], x);
    }
  }

  /** The single-word fallback. */
  function FirstWord(n: string): string
  {
    var i := IndexAny(n);
    if 0 < i <= |n| then n[..i] else n
  }

  lemma {:induction false} FirstWordIsFirst(ws: seq<string>, rest: string)
    requires ws != [] && AllSolid(ws) && (|ws| > 1 || rest == "" || rest[0] == '(')
    ensures FirstWord(Join(ws) + rest) == ws[0]
  {
    JoinHead(ws, rest);
    var a, x := ws[0], Tail(ws, rest);
    IndexAnyAfterWord(a, x);
    assert (a + x)[..|a|] == a;
    assert x == "" ==> a + x == a;
  }

  lemma {:induction false} ParenthesisMatchesNothing(n: string, i: nat)
    requires i < OPS && n != "" && n[0] == '('
    ensures !StringMatch(n, Join(Entry(i).words))
  {
    EntryShape(i);
    EntrySolid(i);
    JoinHead(Entry(i).words, "");
    assert Join(Entry(i).words)[0] == Entry(i).words[0][0];
  }

  predicate Begins(i: nat, ws: seq<string>)
    requires i < OPS
  {
    Entry(i).words <= ws
  }

  /** On the normalised text, the string test of an entry is its word test. */
  lemma {:induction false} EntryTest(w: Split, i: nat)
    requires Shaped(w, MAX_WORDS) && i < OPS
    ensures StringMatch(Join(w.words) + w.rest, Join(Entry(i).words)) <==> Begins(i, w.words)
  {
    EntryShape(i);
    EntrySolid(i);
    if w.words == [] {
      assert Join(w.words) + w.rest == w.rest;
      NotEmpty(Entry(i).words);
      if w.rest != "" { ParenthesisMatchesNothing(w.rest, i); }
    } else {
      MatchIsByWords(Entry(i).words, w.words, w.rest);
    }
  }

  lemma {:induction false} NotEmpty(ws: seq<string>)
    requires ws != [] && ws[0] != ""
    ensures Join(ws) != ""
  {}

  function OpOf(w: Split): string { if w.words == [] then w.rest else TokenOp(w.words) }

  lemma {:induction false} EntryFound(w: Split, i: nat)
    requires i < OPS && Begins(i, w.words)
    ensures OpOf(w) == Entry(i).name
  {
    EntryShape(i);
    TokenOpExactly(w.words, i);
  }

  lemma {:induction false} NoEntryFound(w: Split)
    requires Shaped(w, MAX_WORDS) && forall j: nat | j < OPS :: !Begins(j, w.words)
    ensures FirstWord(Join(w.words) + w.rest) == OpOf(w)
  {
    if w.words == [] {
      assert Join(w.words) + w.rest == w.rest;
    } else {
      FirstWordIsFirst(w.words, w.rest);
      var ws := w.words;
      if |ws| >= 2 && |ws[0]| >= 2 && |ws[1]| >= 1 { assert !Begins(Bucket(ws[0], ws[1]), ws); }
    }
  }

  /** One entry tried on the normalised text. */
  method TryEntry(n: string, i: nat, ghost w: Split) returns (hit: bool, name: string)
    requires i < OPS && Shaped(w, MAX_WORDS) && n == Join(w.words) + w.rest
    ensures (hit <==> Begins(i, w.words)) && (hit ==> name == OpOf(w))
  {
    var p := Join(Entry(i).words);
    EntryTest(w, i);
    hit := |n| >= |p| && n[..|p|] == p && (|n| == |p| || n[|p|] == ' ' || n[|p|] == '(');
    name := Entry(i).name;
    if hit { EntryFound(w, i); }
  }

  /** The matcher of the source: strings against the table, in order. It finds the operation
      that the words give. */
  method MatchOperation(u: string) returns (op: string)
    ensures op == OpOf(Words(u, MAX_WORDS))
  {
    var n := NormalizeWhitespacePrefix(u, MAX_WORDS);
    ghost var w := Words(u, MAX_WORDS);
    WordsShape(u, MAX_WORDS);
    var i := 0;
    while i < OPS
      invariant 0 <= i <= OPS
      invariant forall j: nat | j < i :: !Begins(j, w.words)
    {
      var hit;
      hit, op := TryEntry(n, i, w);
      if hit { return; }
      i := i + 1;
    }
    NoEntryFound(w);
    op := FirstWord(n);
  }

  method ExtractStatementOperation(stmt: string) returns (op: string)
    ensures op == Operation(stmt)
  {
    var s := StripLeadingComments(stmt);
    s := Trim(s);
    if s == "" {
      return "";
    }
    s := StripAllBlockComments(s);
    op := MatchOperation(Upper(s));
  }
}
