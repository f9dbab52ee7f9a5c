/** The operation a query is filtered by: that of its last statement which is more than session
    setup. */
module SqlDetector {
  import opened SqlScanner
  import opened SqlOperations

  predicate IsPreamble(op: string) { op == "SET" || op == "SET_CATALOG" || op == "USE" }

  predicate IsReal(op: string) { op != "" && !IsPreamble(op) }

  /** The last statement with an operation that is not session setup; failing that, the last
      with any operation. */
  function LastReal(stmts: seq<string>): string
    decreases |stmts|
  {
    if stmts == [] then ""
    else
      var op := Operation(stmts[|stmts| - 1]);
      if IsReal(op) then op else LastReal(stmts[..|stmts| - 1])
  }

  function LastAny(stmts: seq<string>): string
    decreases |stmts|
  {
    if stmts == [] then "UNKNOWN"
    else
      var op := Operation(stmts[|stmts| - 1]);
      if op != "" then op else LastAny(stmts[..|stmts| - 1])
  }

  function Primary(query: string): string {
    var stmts := Statements(query);
    if LastReal(stmts) != "" then LastReal(stmts) else LastAny(stmts)
  }

  lemma {:induction false} LastStep(stmts: seq<string>, i: nat, op: string)
    requires 0 < i <= |stmts| && op == Operation(stmts[i - 1])
    ensures LastReal(stmts[..i]) == if IsReal(op) then op else LastReal(stmts[..i - 1])
    ensures LastAny(stmts[..i]) == if op != "" then op else LastAny(stmts[..i - 1])
  {
    var s := stmts[..i];
    assert s[..|s| - 1] == stmts[..i - 1] && s[|s| - 1] == stmts[i - 1];
  }

  method OperationAt(stmts: seq<string>, i: nat) returns (op: string, work: bool)
    requires 0 < i <= |stmts|
    ensures LastReal(stmts[..i]) == if work then op else LastReal(stmts[..i - 1])
    ensures LastAny(stmts[..i]) == if op != "" then op else LastAny(stmts[..i - 1])
  {
    op := ExtractStatementOperation(stmts[i - 1]);
    LastStep(stmts, i, op);
    work := IsReal(op);
  }

  /** The first backward scan of the source. */
  method FindReal(stmts: seq<string>) returns (op: string)
    ensures op == LastReal(stmts)
  {
    var i := |stmts|;
    assert stmts[..|stmts|] == stmts;
    while i > 0
      invariant 0 <= i <= |stmts| && LastReal(stmts[..i]) == LastReal(stmts)
    {
      var work;
      op, work := OperationAt(stmts, i);
      if work { return; }
      i := i - 1;
    }
    op := "";
  }

  /** The second, when all statements are session setup. */
  method FindAny(stmts: seq<string>) returns (op: string)
    ensures op == LastAny(stmts)
  {
    var i := |stmts|;
    assert stmts[..|stmts|] == stmts;
    while i > 0
      invariant 0 <= i <= |stmts| && LastAny(stmts[..i]) == LastAny(stmts)
    {
      var work;
      op, work := OperationAt(stmts, i);
      if op != "" { return; }
      i := i - 1;
    }
    op := "UNKNOWN";
  }

  method ExtractPrimarySQLOperation(query: string) returns (op: string)
    ensures op == Primary(query)
  {
    var stmts := SplitStatements(query);
    op := FindReal(stmts);
    if op == "" {
      op := FindAny(stmts);
    }
  }

  // ---------------------------------------------------------------- which operation it is

  /** The operations of a list of statements. */
  function OpsOf(stmts: seq<string>): seq<string>
    decreases |stmts|
  {
    if stmts == [] then [] else OpsOf(stmts[..|stmts| - 1]) + [Operation(stmts[|stmts| - 1])]
  }

  /** Session setup, and statements without an operation. */
  predicate Idle(op: string) { op == "" || op == "SET" || op == "SET_CATALOG" || op == "USE" }

  predicate IdleFrom(ops: seq<string>, i: nat) { forall j :: i <= j < |ops| ==> Idle(ops[j]) }

  predicate NoneFrom(ops: seq<string>, i: nat) { forall j :: i <= j < |ops| ==> ops[j] == "" }

  /** The last of the first `n` operations that is not idle, and the last that is any. */
  function LastBusy(ops: seq<string>, n: nat): string
    requires n <= |ops|
  {
    if n == 0 then "" else if !Idle(ops[n - 1]) then ops[n - 1] else LastBusy(ops, n - 1)
  }

  function LastNamed(ops: seq<string>, n: nat): string
    requires n <= |ops|
  {
    if n == 0 then "UNKNOWN" else if ops[n - 1] != "" then ops[n - 1] else LastNamed(ops, n - 1)
  }

  lemma {:induction false} LastSame(a: seq<string>, b: seq<string>, n: nat)
    requires n <= |a| && n <= |b| && forall i :: 0 <= i < n ==> a[i] == b[i]
    ensures LastBusy(a, n) == LastBusy(b, n) && LastNamed(a, n) == LastNamed(b, n)
  {
    if n > 0 { LastSame(a, b, n - 1); }
  }

  lemma {:induction false} LastSnoc(ops: seq<string>, op: string)
    ensures var all := ops + [op];
      && LastBusy(all, |all|) == (if !Idle(op) then op else LastBusy(ops, |ops|))
      && LastNamed(all, |all|) == (if op != "" then op else LastNamed(ops, |ops|))
  {
    LastSame(ops + [op], ops, |ops|);
  }

  lemma {:induction false} LastByOps(stmts: seq<string>)
    ensures var ops := OpsOf(stmts); LastReal(stmts) == LastBusy(ops, |ops|) && LastAny(stmts) == LastNamed(ops, |ops|)
    decreases |stmts|
  {
    if stmts != [] {
      var n := |stmts| - 1;
      LastByOps(stmts[..n]);
      LastStep(stmts, |stmts|, Operation(stmts[n]));
      assert stmts[..|stmts|] == stmts;
      LastSnoc(OpsOf(stmts[..n]), Operation(stmts[n]));
    }
  }

  lemma {:induction false} BusySkips(ops: seq<string>, i: nat, n: nat)
    requires i <= n <= |ops| && IdleFrom(ops, i)
    ensures LastBusy(ops, n) == LastBusy(ops, i)
  {
    if i < n { BusySkips(ops, i, n - 1); }
  }

  lemma {:induction false} NamedSkips(ops: seq<string>, i: nat, n: nat)
    requires i <= n <= |ops| && NoneFrom(ops, i)
    ensures LastNamed(ops, n) == LastNamed(ops, i)
  {
    if i < n { NamedSkips(ops, i, n - 1); }
  }

  /** What is chosen from a list of operations. */
  predicate Chosen(ops: seq<string>, i: nat, op: string) {
    && (i < |ops| && !Idle(ops[i]) && IdleFrom(ops, i + 1) ==> op == ops[i])
    && (i < |ops| && IdleFrom(ops, 0) && ops[i] != "" && NoneFrom(ops, i + 1) ==> op == ops[i])
    && (NoneFrom(ops, 0) ==> op == "UNKNOWN")
  }

  lemma {:induction false} ChosenExactly(ops: seq<string>, i: nat)
    ensures var busy := LastBusy(ops, |ops|); Chosen(ops, i, if busy != "" then busy else LastNamed(ops, |ops|))
  {
    if i < |ops| && IdleFrom(ops, i + 1) { BusySkips(ops, i + 1, |ops|); }
    if i < |ops| && NoneFrom(ops, i + 1) { NamedSkips(ops, i + 1, |ops|); }
    if IdleFrom(ops, 0) { BusySkips(ops, 0, |ops|); }
    if NoneFrom(ops, 0) {
      BusySkips(ops, 0, |ops|);
      NamedSkips(ops, 0, |ops|);
    }
  }

  /** The operation of a query: that of the last statement which is not session setup (SET, SET
      CATALOG or USE); if all are, of the last that has any; UNKNOWN if none has. */
  lemma {:induction false} PrimaryExactly(query: string, i: nat)
    ensures Chosen(OpsOf(Statements(query)), i, Primary(query))
  {
    LastByOps(Statements(query));
    ChosenExactly(OpsOf(Statements(query)), i);
  }

  // ---------------------------------------------------------------- two queries in one

  lemma {:induction false} LastRealAppend(a: seq<string>, b: seq<string>)
    ensures LastReal(a + b) == if LastReal(b) != "" then LastReal(b) else LastReal(a)
    decreases |b|
  {
    if b == [] {
      assert a + b == a;
    } else {
      assert (a + b)[..|a + b| - 1] == a + b[..|b| - 1];
      LastRealAppend(a, b[..|b| - 1]);
    }
  }

  predicate HasOp(stmts: seq<string>)
    decreases |stmts|
  {
    stmts != [] && (Operation(stmts[|stmts| - 1]) != "" || HasOp(stmts[..|stmts| - 1]))
  }

  lemma {:induction false} LastAnyAppend(a: seq<string>, b: seq<string>)
    ensures LastAny(a + b) == if HasOp(b) then LastAny(b) else LastAny(a)
    decreases |b|
  {
    if b == [] {
      assert a + b == a;
    } else {
      assert (a + b)[..|a + b| - 1] == a + b[..|b| - 1];
      LastAnyAppend(a, b[..|b| - 1]);
    }
  }

  /** Two queries joined: the later one decides if it has a real operation, else the earlier
      one if that has, else again the later one if it has any operation at all. */
  lemma {:induction false} PrimaryOfBoth(p: string, q: string)
    requires CutOf(p).mode == START
    ensures Primary(p + ";" + q) ==
      if LastReal(Statements(q)) != "" then Primary(q)
      else if LastReal(Statements(p)) != "" then Primary(p)
      else if HasOp(Statements(q)) then Primary(q)
      else Primary(p)
  {
    SplitIsHomomorphism(p, q);
    LastRealAppend(Statements(p), Statements(q));
    LastAnyAppend(Statements(p), Statements(q));
  }

  /** So prefixing setup, or anything else that ends outside quotes, never changes the
      operation of a query that has a real one. */
  lemma {:induction false} PrefixKeepsPrimary(p: string, q: string)
    requires CutOf(p).mode == START && LastReal(Statements(q)) != ""
    ensures Primary(p + ";" + q) == Primary(q)
  {
    PrimaryOfBoth(p, q);
  }
}
