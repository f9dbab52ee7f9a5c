/** Which PostgreSQL frames are mirrored to the shadow. A filtered Parse hides its statement
    name, and later frames that name it are dropped too, so that the shadow never hears of a
    statement it was not given. The set of hidden names is bounded and cleared on overflow. */
module PgMirrorPolicy {
  import opened Network
  import opened PgMessages

  const STICKY_CAP := 4096

  type Filter = seq<byte> -> bool

  /** The deterministic filter: frames without SQL text always pass. */
  predicate Passes(allow: Filter, sql: seq<byte>) { sql == [] || allow(sql) }

  datatype Reason = Mirrored | ByFilter | StickyStatement

  datatype Sticky = Sticky(names: set<Name>, resets: nat)

  /** A Parse of a named statement that the filter rejects. */
  predicate Hides(allow: Filter, f: Frame) { f.Parse? && f.name != [] && !Passes(allow, f.sql) }

  predicate ClosesStatement(f: Frame) { f.Close? && f.target == STATEMENT && f.name != [] }

  /** Frames that refer to a named statement made by an earlier Parse. */
  predicate Refers(f: Frame) {
    (f.Bind? || f.Describe? || f.Close?) && f.name != [] && (f.Bind? || f.target == STATEMENT)
  }

  function Verdict(allow: Filter, st: Sticky, f: Frame): Reason {
    if (f.Query? || f.Parse?) && !Passes(allow, f.sql) then ByFilter
    else if Refers(f) && f.name in st.names then StickyStatement
    else Mirrored
  }

  function Update(allow: Filter, st: Sticky, f: Frame): Sticky {
    if Hides(allow, f) then
      if |st.names| >= STICKY_CAP then Sticky({f.name}, st.resets + 1) else st.(names := st.names + {f.name})
    else if ClosesStatement(f) then st.(names := st.names - {f.name})
    else st
  }

  /** The per-connection state of `shouldMirrorPgFrame`, updated in place. */
  class MirrorPolicy {
    const allow: Filter
    var filteredStmtNames: set<Name>
    var resets: nat

    constructor (allow: Filter)
      ensures this.allow == allow && State() == Sticky({}, 0)
    {
      this.allow, filteredStmtNames, resets := allow, {}, 0;
    }

    function State(): Sticky reads this { Sticky(filteredStmtNames, resets) }

    /** The name goes into the set, which is cleared first if it is full. */
    method Hide(name: Name)
      modifies this
      ensures resets == old(resets) + if |old(filteredStmtNames)| >= STICKY_CAP then 1 else 0
      ensures filteredStmtNames ==
        if |old(filteredStmtNames)| >= STICKY_CAP then {name} else old(filteredStmtNames) + {name}
    {
      if |filteredStmtNames| >= STICKY_CAP {
        filteredStmtNames := {};
        resets := resets + 1;
      }
      filteredStmtNames := filteredStmtNames + {name};
    }

    /** A Parse is mirrored if the filter passes its text; otherwise its name is hidden. */
    method MirrorParse(msg: Packet) returns (reason: Reason)
      requires msg.kind == PARSE
      modifies this
      ensures reason == Verdict(allow, old(State()), FrameOf(msg))
      ensures State() == Update(allow, old(State()), FrameOf(msg))
    {
      reason := Mirrored;
      var sql := FindQueryText(msg);
      if !Passes(allow, sql) {
        reason := ByFilter;
        var name := FindParseName(msg);
        if name != [] { Hide(name); }
      }
    }

    /** A Close of a hidden statement is dropped and the name forgotten. */
    method MirrorClose(msg: Packet) returns (reason: Reason)
      requires msg.kind == CLOSE
      modifies this
      ensures reason == Verdict(allow, old(State()), FrameOf(msg))
      ensures State() == Update(allow, old(State()), FrameOf(msg))
    {
      reason := Mirrored;
      var target, name := FindTarget(msg);
      assert name !in filteredStmtNames ==> filteredStmtNames - {name} == filteredStmtNames;
      if target == STATEMENT && name != [] && name in filteredStmtNames {
        filteredStmtNames := filteredStmtNames - {name};
        reason := StickyStatement;
      }
    }

    method ShouldMirror(msg: Packet) returns (allowed: bool, reason: Reason)
      modifies this
      ensures reason == Verdict(allow, old(State()), FrameOf(msg)) && (allowed <==> reason == Mirrored)
      ensures State() == Update(allow, old(State()), FrameOf(msg))
    {
      reason := Mirrored;
      if msg.kind == QUERY {
        var sql := FindQueryText(msg);
        reason := if Passes(allow, sql) then Mirrored else ByFilter;
      } else if msg.kind == PARSE {
        reason := MirrorParse(msg);
      } else if msg.kind == BIND {
        var name := FindBindName(msg);
        if name != [] && name in filteredStmtNames { reason := StickyStatement; }
      } else if msg.kind == DESCRIBE {
        var target, name := FindTarget(msg);
        if target == STATEMENT && name != [] && name in filteredStmtNames { reason := StickyStatement; }
      } else if msg.kind == CLOSE {
        reason := MirrorClose(msg);
      }
      allowed := reason == Mirrored;
    }

    /** The loop's second deletion after a mirrored Close: it never changes anything. */
    method ForgetClosed(msg: Packet)
      requires Verdict(allow, State(), FrameOf(msg)) == Mirrored
      modifies this
      ensures State() == old(State())
    {
      if msg.kind == CLOSE {
        var target, name := FindTarget(msg);
        if target == STATEMENT && name != [] {
          filteredStmtNames := filteredStmtNames - {name};
        }
      }
    }
  }

  // ---------------------------------------------------------------- the set over a whole trace

  /** The set after the first `n` frames of a trace. */
  function After(allow: Filter, trace: seq<Frame>, n: nat): Sticky
    requires n <= |trace|
  {
    if n == 0 then Sticky({}, 0) else Update(allow, After(allow, trace, n - 1), trace[n - 1])
  }

  lemma {:induction false} AfterSame(allow: Filter, a: seq<Frame>, b: seq<Frame>, n: nat)
    requires n <= |a| && n <= |b| && forall i :: 0 <= i < n ==> a[i] == b[i]
    ensures After(allow, a, n) == After(allow, b, n)
  {
    if n > 0 { AfterSame(allow, a, b, n - 1); }
  }

  /** The frame at `j` overflows the set, which is cleared before its name goes in. */
  predicate ClearsAt(allow: Filter, trace: seq<Frame>, j: nat)
    requires j < |trace|
  {
    Hides(allow, trace[j]) && |After(allow, trace, j).names| >= STICKY_CAP
  }

  /** The frame at `j` neither closes `name` nor clears the set. */
  predicate SparesAt(allow: Filter, trace: seq<Frame>, j: nat, name: Name)
    requires j < |trace|
  {
    !ClearsAt(allow, trace, j) && !(ClosesStatement(trace[j]) && trace[j].name == name)
  }

  /** A filtered Parse of `name` at `i` that nothing has undone before `n`. */
  predicate StillHidden(allow: Filter, trace: seq<Frame>, i: nat, n: nat, name: Name)
    requires i < n <= |trace|
  {
    Hides(allow, trace[i]) && trace[i].name == name && forall j :: i < j < n ==> SparesAt(allow, trace, j, name)
  }

  lemma {:induction false} UpdateNames(allow: Filter, st: Sticky, f: Frame, name: Name)
    ensures name in Update(allow, st, f).names <==>
      (Hides(allow, f) && f.name == name)
      || (name in st.names && !(Hides(allow, f) && |st.names| >= STICKY_CAP) && !(ClosesStatement(f) && f.name == name))
  {}

  lemma {:induction false} HiddenStep(allow: Filter, trace: seq<Frame>, i: nat, n: nat, name: Name)
    requires i <= n < |trace|
    ensures StillHidden(allow, trace, i, n + 1, name) <==>
      if i == n then Hides(allow, trace[n]) && trace[n].name == name
      else StillHidden(allow, trace, i, n, name) && SparesAt(allow, trace, n, name)
  {}

  lemma {:induction false} HiddenWitness(allow: Filter, trace: seq<Frame>, n: nat, name: Name) returns (i: nat)
    requires n <= |trace| && name in After(allow, trace, n).names
    ensures i < n && StillHidden(allow, trace, i, n, name)
  {
    UpdateNames(allow, After(allow, trace, n - 1), trace[n - 1], name);
    if Hides(allow, trace[n - 1]) && trace[n - 1].name == name {
      i := n - 1;
    } else {
      i := HiddenWitness(allow, trace, n - 1, name);
      HiddenStep(allow, trace, i, n - 1, name);
    }
  }

  lemma {:induction false} HiddenTracked(allow: Filter, trace: seq<Frame>, i: nat, n: nat, name: Name)
    requires i < n <= |trace| && StillHidden(allow, trace, i, n, name)
    ensures name in After(allow, trace, n).names
  {
    HiddenStep(allow, trace, i, n - 1, name);
    UpdateNames(allow, After(allow, trace, n - 1), trace[n - 1], name);
    if i < n - 1 { HiddenTracked(allow, trace, i, n - 1, name); }
  }

  /** History: at any point of any trace, a name is in the set exactly when some filtered Parse of
      it has neither been followed by a Close of that statement nor by an overflow. */
  lemma {:induction false} StickyHistory(allow: Filter, trace: seq<Frame>, n: nat, name: Name)
    requires n <= |trace|
    ensures name in After(allow, trace, n).names <==>
      exists i :: 0 <= i < n && StillHidden(allow, trace, i, n, name)
  {
    if name in After(allow, trace, n).names { var i := HiddenWitness(allow, trace, n, name); }
    forall i | 0 <= i < n && StillHidden(allow, trace, i, n, name) ensures name in After(allow, trace, n).names {
      HiddenTracked(allow, trace, i, n, name);
    }
  }

  function HiddenParses(allow: Filter, trace: seq<Frame>, n: nat): nat
    requires n <= |trace|
  {
    if n == 0 then 0 else HiddenParses(allow, trace, n - 1) + if Hides(allow, trace[n - 1]) then 1 else 0
  }

  /** The set stays within its bound, and overflows only after that many filtered Parses. */
  lemma {:induction false} StickyBounded(allow: Filter, trace: seq<Frame>, n: nat)
    requires n <= |trace|
    ensures var st := After(allow, trace, n);
      |st.names| <= 4096 && 4096 * st.resets + |st.names| <= HiddenParses(allow, trace, n)
  {
    if n > 0 {
      StickyBounded(allow, trace, n - 1);
      var st, f := After(allow, trace, n - 1), trace[n - 1];
      if ClosesStatement(f) { SubsetSize(st.names - {f.name}, st.names); }
    }
  }

  /** The set is cleared exactly when a filtered Parse finds 4096 names in it. */
  lemma {:induction false} ClearsExactly(allow: Filter, trace: seq<Frame>, j: nat)
    requires j < |trace|
    ensures ClearsAt(allow, trace, j) <==> Hides(allow, trace[j]) && |After(allow, trace, j).names| == 4096
  {
    StickyBounded(allow, trace, j);
  }

  lemma {:induction false} SubsetSize<T>(a: set<T>, b: set<T>)
    requires a <= b
    ensures |a| <= |b|
  {
    if a != {} {
      var x :| x in a;
      SubsetSize(a - {x}, b - {x});
    }
  }

  // ---------------------------------------------------------------- what the shadow knows

  type Table = map<Name, seq<byte>>

  /** A server's named statements after one more frame; a Parse of a name in use fails. */
  function Serve(t: Table, f: Frame): Table {
    match f
    case Parse(name, sql) => if name != [] && name !in t then t[name := sql] else t
    case Close(target, name) => if target == 0x53 && name != [] then t - {name} else t
    case _ => t
  }

  /** Primary and shadow side by side with the policy; `hidden`: statements that live on the
      primary and whose Parse was filtered. */
  datatype World = World(sticky: Sticky, primary: Table, shadow: Table, hidden: set<Name>)

  function Step(allow: Filter, w: World, f: Frame): World {
    World(Update(allow, w.sticky, f),
          Serve(w.primary, f),
          if Verdict(allow, w.sticky, f) == Mirrored then Serve(w.shadow, f) else w.shadow,
          match f
          case Parse(name, sql) => if name != [] && sql != [] && !allow(sql) then w.hidden + {name} else w.hidden
          case Close(target, name) => if target == 0x53 && name != [] then w.hidden - {name} else w.hidden
          case _ => w.hidden)
  }

  /** The world after the first `n` frames of a trace. */
  function Play(allow: Filter, trace: seq<Frame>, n: nat): World
    requires n <= |trace|
  {
    if n == 0 then World(Sticky({}, 0), map[], map[], {}) else Step(allow, Play(allow, trace, n - 1), trace[n - 1])
  }

  /** The client follows the protocol: it does not Parse a name that is in use. */
  predicate Legal(allow: Filter, trace: seq<Frame>) {
    forall i :: 0 <= i < |trace| ==> LegalAt(allow, trace, i)
  }

  predicate LegalAt(allow: Filter, trace: seq<Frame>, i: nat)
    requires i < |trace|
  {
    trace[i].Parse? && trace[i].name != [] ==> trace[i].name !in Play(allow, trace, i).primary
  }

  /** The shadow holds the primary's statements except the hidden ones; the policy tracks
      hidden names only, and until the first overflow all of them. */
  predicate Simulates(w: World) {
    && w.hidden <= w.primary.Keys
    && w.shadow == w.primary - w.hidden
    && w.sticky.names <= w.hidden
    && (w.sticky.resets == 0 ==> w.sticky.names == w.hidden)
  }

  lemma {:induction false} PutBoth(t: Table, hidden: set<Name>, name: Name, sql: seq<byte>)
    requires name !in t && hidden <= t.Keys
    ensures (t - hidden)[name := sql] == t[name := sql] - hidden
  {}

  lemma {:induction false} PutHidden(t: Table, hidden: set<Name>, name: Name, sql: seq<byte>)
    requires name !in t
    ensures t[name := sql] - (hidden + {name}) == t - hidden
  {}

  lemma {:induction false} DropBoth(t: Table, hidden: set<Name>, name: Name)
    ensures (t - {name}) - (hidden - {name}) == (t - hidden) - {name}
    ensures name in hidden ==> (t - hidden) - {name} == t - hidden
  {}

  lemma {:induction false} StepSimulates(allow: Filter, w: World, f: Frame)
    requires Simulates(w) && (f.Parse? && f.name != [] ==> f.name !in w.primary)
    ensures Simulates(Step(allow, w, f))
  {
    if f.Parse? && f.name != [] {
      if Passes(allow, f.sql) {
        PutBoth(w.primary, w.hidden, f.name, f.sql);
      } else {
        PutHidden(w.primary, w.hidden, f.name, f.sql);
      }
    } else if ClosesStatement(f) {
      DropBoth(w.primary, w.hidden, f.name);
    }
  }

  /** Simulation: at every point of every legal trace, overflows included, replaying only the
      mirrored frames gives the primary's named statements minus the hidden ones. */
  lemma {:induction false} Simulation(allow: Filter, trace: seq<Frame>, n: nat)
    requires Legal(allow, trace) && n <= |trace|
    ensures Simulates(Play(allow, trace, n))
  {
    if n > 0 {
      Simulation(allow, trace, n - 1);
      assert LegalAt(allow, trace, n - 1);
      StepSimulates(allow, Play(allow, trace, n - 1), trace[n - 1]);
    }
  }

  lemma {:induction false} PlayTracksPolicy(allow: Filter, trace: seq<Frame>, n: nat)
    requires n <= |trace|
    ensures Play(allow, trace, n).sticky == After(allow, trace, n)
  {
    if n > 0 { PlayTracksPolicy(allow, trace, n - 1); }
  }

  /** No frame about a statement the shadow has is ever dropped; and until the first overflow
      no frame about a live statement the shadow lacks is ever mirrored. */
  lemma {:induction false} MirroringIsConsistent(allow: Filter, trace: seq<Frame>, n: nat, f: Frame)
    requires Legal(allow, trace) && n <= |trace| && Refers(f)
    ensures var w := Play(allow, trace, n);
      && (Verdict(allow, w.sticky, f) != Mirrored ==> f.name !in w.shadow && f.name in w.primary)
      && (w.sticky.resets == 0 && f.name in w.primary ==>
          (Verdict(allow, w.sticky, f) == Mirrored <==> f.name in w.shadow))
  {
    Simulation(allow, trace, n);
  }

  /** What the policy says of every frame, written out. Query and Parse are kept back exactly if they
      have a text and the filter rejects it; Bind, and Describe and Close of a statement ('S'),
      exactly if they name a tracked statement; everything else is mirrored. */
  lemma {:induction false} VerdictTable(allow: Filter, st: Sticky, portal: Name, name: Name, sql: seq<byte>, b: byte)
    ensures Verdict(allow, st, Query(sql)) == if sql == [] || allow(sql) then Mirrored else ByFilter
    ensures Verdict(allow, st, Parse(name, sql)) == if sql == [] || allow(sql) then Mirrored else ByFilter
    ensures var sticky := if name != [] && name in st.names then StickyStatement else Mirrored;
      && Verdict(allow, st, Bind(portal, name)) == sticky
      && Verdict(allow, st, Describe(0x53, name)) == sticky && Verdict(allow, st, Close(0x53, name)) == sticky
    ensures b != 0x53 ==> Verdict(allow, st, Describe(b, name)) == Mirrored == Verdict(allow, st, Close(b, name))
    ensures Verdict(allow, st, Execute(portal)) == Mirrored == Verdict(allow, st, Other(b))
  {}

  /** Which frames count as referring to a statement, as hiding one and as closing one. */
  lemma {:induction false} FrameKinds(allow: Filter, f: Frame)
    ensures Refers(f) <==> match f
      case Bind(_, name) => name != []
      case Describe(target, name) => target == 0x53 && name != []
      case Close(target, name) => target == 0x53 && name != []
      case _ => false
    ensures Hides(allow, f) <==> f.Parse? && f.name != [] && f.sql != [] && !allow(f.sql)
    ensures ClosesStatement(f) <==> f.Close? && f.target == 0x53 && f.name != []
  {}

  /** Consistency, frame by frame. At every point of every legal trace, Bind, Describe and Close of a
      statement that the shadow has are mirrored; and until the first overflow those of a live
      statement are mirrored if and only if the shadow has it. */
  lemma {:induction false} MirroredExactly(allow: Filter, trace: seq<Frame>, n: nat, portal: Name, name: Name)
    requires Legal(allow, trace) && n <= |trace| && name != []
    ensures var w := Play(allow, trace, n);
      var bind, describe, close := Bind(portal, name), Describe(0x53, name), Close(0x53, name);
      && (name in w.shadow ==>
            forall f | f in {bind, describe, close} :: Verdict(allow, w.sticky, f) == Mirrored)
      && (w.sticky.resets == 0 && name in w.primary ==>
            forall f | f in {bind, describe, close} :: Verdict(allow, w.sticky, f) == Mirrored <==> name in w.shadow)
  {
    Simulation(allow, trace, n);
    VerdictTable(allow, Play(allow, trace, n).sticky, portal, name, [], 0);
  }

  /** Past an overflow a frame about a live statement dangles on the shadow exactly when its
      statement is hidden and the policy has forgotten it. */
  lemma {:induction false} DanglesExactly(allow: Filter, trace: seq<Frame>, n: nat, f: Frame)
    requires Legal(allow, trace) && n <= |trace| && Refers(f)
    ensures var w := Play(allow, trace, n);
      f.name in w.primary ==>
        (Verdict(allow, w.sticky, f) == Mirrored && f.name !in w.shadow <==> f.name in w.hidden - w.sticky.names)
  {
    Simulation(allow, trace, n);
  }

  /** And this happens at every overflow of a legal trace: some live statement is hidden and
      forgotten at once, so that a Bind of it is mirrored to a shadow that does not have it. */
  lemma {:induction false} OverflowDangles(allow: Filter, trace: seq<Frame>, j: nat) returns (name: Name)
    requires Legal(allow, trace) && j < |trace| && ClearsAt(allow, trace, j)
    ensures var w := Play(allow, trace, j + 1);
      && name in w.primary && name in w.hidden && name !in w.sticky.names && name !in w.shadow
      && forall portal :: Verdict(allow, w.sticky, Bind(portal, name)) == Mirrored
  {
    Simulation(allow, trace, j);
    Simulation(allow, trace, j + 1);
    PlayTracksPolicy(allow, trace, j);
    assert LegalAt(allow, trace, j);
    var names := Play(allow, trace, j).sticky.names;
    assert names != {};
    name :| name in names;
  }

  /** A filtered Parse of `name` at `i`, with no Close of that statement before `n`. */
  predicate Unclosed(allow: Filter, trace: seq<Frame>, i: nat, n: nat, name: Name)
    requires i < n <= |trace|
  {
    Hides(allow, trace[i]) && trace[i].name == name &&
    forall j :: i < j < n ==> !(ClosesStatement(trace[j]) && trace[j].name == name)
  }

  /** The hidden statements, read off the trace: those with a filtered Parse not closed since. */
  lemma {:induction false} HiddenHistory(allow: Filter, trace: seq<Frame>, n: nat, name: Name)
    requires n <= |trace|
    ensures name in Play(allow, trace, n).hidden <==> exists i :: 0 <= i < n && Unclosed(allow, trace, i, n, name)
  {
    if n > 0 {
      var m := n - 1;
      HiddenHistory(allow, trace, m, name);
      forall i | 0 <= i < m
        ensures Unclosed(allow, trace, i, n, name) <==>
          Unclosed(allow, trace, i, m, name) && !(ClosesStatement(trace[m]) && trace[m].name == name)
      {}
      assert Unclosed(allow, trace, m, n, name) <==> Hides(allow, trace[m]) && trace[m].name == name;
    }
  }

  /** Dangling, read off the trace: a frame about a live statement is mirrored to a shadow that
      lacks it if and only if some filtered Parse of it has had no Close since, and each of these
      has been followed by an overflow. */
  lemma {:induction false} DanglesByHistory(allow: Filter, trace: seq<Frame>, n: nat, f: Frame)
    requires Legal(allow, trace) && n <= |trace| && Refers(f)
    ensures var w := Play(allow, trace, n);
      f.name in w.primary ==>
        (Verdict(allow, w.sticky, f) == Mirrored && f.name !in w.shadow <==>
         (exists i :: 0 <= i < n && Unclosed(allow, trace, i, n, f.name)) &&
         !(exists i :: 0 <= i < n && StillHidden(allow, trace, i, n, f.name)))
  {
    DanglesExactly(allow, trace, n, f);
    HiddenHistory(allow, trace, n, f.name);
    StickyHistory(allow, trace, n, f.name);
    PlayTracksPolicy(allow, trace, n);
  }

  // ---------------------------------------------------------------- where the promise stops

  /** A Parse that reuses a name held by the other side: a tracked name for a statement that is
      mirrored, or the name of a shadow statement for one that is hidden. */
  predicate Clashes(allow: Filter, w: World, f: Frame) {
    f.Parse? && f.name != [] && f.name in (if Passes(allow, f.sql) then w.sticky.names else w.shadow.Keys)
  }

  /** One frame keeps tracked names and shadow statements apart exactly when it does not clash. */
  lemma {:induction false} ClashExactly(allow: Filter, w: World, f: Frame)
    requires w.sticky.names !! w.shadow.Keys
    ensures var v := Step(allow, w, f); v.sticky.names !! v.shadow.Keys <==> !Clashes(allow, w, f)
  {
    var v := Step(allow, w, f);
    if f.Parse? && f.name != [] {
      if Passes(allow, f.sql) {
        assert f.name in v.shadow && v.sticky == w.sticky;
      } else {
        assert f.name in v.sticky.names && v.shadow == w.shadow;
      }
    }
  }

  /** The frame at `i` clashes where it stands. */
  predicate ClashesAt(allow: Filter, trace: seq<Frame>, i: nat)
    requires i < |trace|
  {
    Clashes(allow, Play(allow, trace, i), trace[i])
  }

  predicate ApartAt(allow: Filter, trace: seq<Frame>, n: nat)
    requires n <= |trace|
  {
    var w := Play(allow, trace, n); w.sticky.names !! w.shadow.Keys
  }

  lemma {:induction false} ApartStep(allow: Filter, trace: seq<Frame>, i: nat)
    requires i < |trace| && ApartAt(allow, trace, i)
    ensures ApartAt(allow, trace, i + 1) <==> !ClashesAt(allow, trace, i)
  {
    ClashExactly(allow, Play(allow, trace, i), trace[i]);
  }

  lemma {:induction false} ApartUpTo(allow: Filter, trace: seq<Frame>, n: nat)
    requires n <= |trace| && forall i :: 0 <= i < n ==> !ClashesAt(allow, trace, i)
    ensures ApartAt(allow, trace, n)
  {
    if n > 0 {
      ApartUpTo(allow, trace, n - 1);
      ApartStep(allow, trace, n - 1);
    }
  }

  /** Along any trace, legal or not, tracked names and shadow statements are apart at every point
      if and only if no frame clashes. */
  lemma {:induction false} ApartExactly(allow: Filter, trace: seq<Frame>)
    ensures (forall n :: 0 <= n <= |trace| ==> ApartAt(allow, trace, n)) <==>
            (forall i :: 0 <= i < |trace| ==> !ClashesAt(allow, trace, i))
  {
    if forall i :: 0 <= i < |trace| ==> !ClashesAt(allow, trace, i) {
      forall n | 0 <= n <= |trace| ensures ApartAt(allow, trace, n) { ApartUpTo(allow, trace, n); }
    }
    if forall n :: 0 <= n <= |trace| ==> ApartAt(allow, trace, n) {
      forall i | 0 <= i < |trace| ensures !ClashesAt(allow, trace, i) {
        assert ApartAt(allow, trace, i) && ApartAt(allow, trace, i + 1);
        ApartStep(allow, trace, i);
      }
    }
  }

  lemma {:induction false} NamesAreNamed(allow: Filter, trace: seq<Frame>, n: nat)
    requires n <= |trace|
    ensures [] !in Play(allow, trace, n).sticky.names
  {
    if n > 0 { NamesAreNamed(allow, trace, n - 1); }
  }

  /** After the first `n` frames, no Bind about a statement the shadow holds would be dropped. */
  ghost predicate HeardAt(allow: Filter, trace: seq<Frame>, n: nat)
    requires n <= |trace|
  {
    var w := Play(allow, trace, n);
    forall portal, name :: name in w.shadow && name != [] ==> Verdict(allow, w.sticky, Bind(portal, name)) == Mirrored
  }

  lemma {:induction false} HeardIsApart(allow: Filter, trace: seq<Frame>, n: nat)
    requires n <= |trace|
    ensures HeardAt(allow, trace, n) <==> ApartAt(allow, trace, n)
  {
    NamesAreNamed(allow, trace, n);
    var w := Play(allow, trace, n);
    if HeardAt(allow, trace, n) {
      forall name | name in w.shadow.Keys ensures name !in w.sticky.names {
        if name != [] { assert Verdict(allow, w.sticky, Bind([], name)) == Mirrored; }
      }
    }
  }

  /** The promise of the policy, exactly: on any trace, legal or not, no Bind about a statement
      the shadow holds is ever dropped if and only if no frame clashes. */
  lemma {:induction false} NeverDroppedExactly(allow: Filter, trace: seq<Frame>)
    ensures (forall n :: 0 <= n <= |trace| ==> HeardAt(allow, trace, n)) <==>
            (forall i :: 0 <= i < |trace| ==> !ClashesAt(allow, trace, i))
  {
    forall n | 0 <= n <= |trace| ensures HeardAt(allow, trace, n) <==> ApartAt(allow, trace, n) {
      HeardIsApart(allow, trace, n);
    }
    ApartExactly(allow, trace);
  }

  /** And then no Describe or Close either. */
  lemma {:induction false} NoClashNoDrop(allow: Filter, trace: seq<Frame>, n: nat, f: Frame)
    requires n <= |trace| && (forall i :: 0 <= i < n ==> !ClashesAt(allow, trace, i)) && Refers(f)
    ensures var w := Play(allow, trace, n); f.name in w.shadow ==> Verdict(allow, w.sticky, f) == Mirrored
  {
    ApartUpTo(allow, trace, n);
  }

  /** Reusing a hidden name for an allowed statement, anywhere in any trace: its Bind is dropped
      although the shadow has the statement. */
  lemma {:induction false} ReparseStaysHidden(allow: Filter, trace: seq<Frame>, n: nat, name: Name, portal: Name)
    requires n + 2 <= |trace| && name != [] && trace[n].Parse? && trace[n + 1].Parse?
    requires trace[n].name == trace[n + 1].name == name
    requires !Passes(allow, trace[n].sql) && Passes(allow, trace[n + 1].sql)
    ensures var w := Play(allow, trace, n + 2);
      name in w.shadow && Verdict(allow, w.sticky, Bind(portal, name)) == StickyStatement
  {
    var w := Play(allow, trace, n);
    assert Play(allow, trace, n + 1) == Step(allow, w, trace[n]);
    assert name in Step(allow, w, trace[n]).sticky.names;
  }

  /** The frame at `i` is mirrored. */
  predicate Ships(allow: Filter, trace: seq<Frame>, i: nat)
    requires i < |trace|
  {
    Verdict(allow, After(allow, trace, i), trace[i]) == Mirrored
  }

  function ShipsAll(allow: Filter, trace: seq<Frame>): seq<bool> {
    seq(|trace|, i requires 0 <= i < |trace| => Ships(allow, trace, i))
  }

  /** The frames among the first `n` of a trace that are mirrored. */
  function Shipped(allow: Filter, trace: seq<Frame>, n: nat): seq<Frame>
    requires n <= |trace|
  {
    Pick(trace, ShipsAll(allow, trace), n)
  }

  function Executes(trace: seq<Frame>, n: nat): nat
    requires n <= |trace|
  {
    if n == 0 then 0 else Executes(trace, n - 1) + if trace[n - 1].Execute? then 1 else 0
  }

  lemma {:induction false} ExecutesSame(a: seq<Frame>, b: seq<Frame>, n: nat)
    requires n <= |a| && n <= |b| && forall i :: 0 <= i < n ==> a[i] == b[i]
    ensures Executes(a, n) == Executes(b, n)
  {
    if n > 0 { ExecutesSame(a, b, n - 1); }
  }

  lemma {:induction false} ExecutesPicked(trace: seq<Frame>, keep: seq<bool>, n: nat)
    requires n <= |trace| && n <= |keep| && forall i :: 0 <= i < n && trace[i].Execute? ==> keep[i]
    ensures var s := Pick(trace, keep, n); Executes(s, |s|) == Executes(trace, n)
  {
    if n > 0 {
      ExecutesPicked(trace, keep, n - 1);
      var before := Pick(trace, keep, n - 1);
      ExecutesSame(before, Pick(trace, keep, n), |before|);
    }
  }

  /** On every trace, legal or not, each Execute is mirrored, also one whose Bind was dropped. */
  lemma {:induction false} ExecutesAllShipped(allow: Filter, trace: seq<Frame>, n: nat)
    requires n <= |trace|
    ensures var s := Shipped(allow, trace, n); Executes(s, |s|) == Executes(trace, n)
  {
    assert forall i :: 0 <= i < n && trace[i].Execute? ==> ShipsAll(allow, trace)[i];
    ExecutesPicked(trace, ShipsAll(allow, trace), n);
  }

  /** So the shadow can be sent an Execute and nothing of what it executes. */
  lemma {:induction false} ExecuteAlone(allow: Filter, trace: seq<Frame>, name: Name, portal: Name)
    requires |trace| == 3 && name != [] && trace[0].Parse? && trace[0].name == name && !Passes(allow, trace[0].sql)
    requires trace[1] == Bind(portal, name) && trace[2] == Execute(portal)
    ensures Shipped(allow, trace, 3) == [Execute(portal)]
  {
    assert After(allow, trace, 1) == Update(allow, After(allow, trace, 0), trace[0]);
    assert name in After(allow, trace, 1).names;
    var keep := ShipsAll(allow, trace);
    assert !keep[0] && !keep[1] && keep[2];
    assert Pick(trace, keep, 0) == [];
    assert Pick(trace, keep, 1) == Pick(trace, keep, 0) + [] == [];
    assert Pick(trace, keep, 2) == Pick(trace, keep, 1) + [] == [];
  }
}
