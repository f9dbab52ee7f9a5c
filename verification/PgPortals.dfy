/** What a mirrored Execute runs. Portals are bound to statements by Bind frames, some of which
    are dropped, while every Execute is mirrored: this says when both servers run the same
    statement. Portals last until they are bound anew or closed; the end of a transaction is not
    part of the account. */
module PgPortals {
  import opened Network
  import opened PgMessages
  import opened PgMirrorPolicy

  // ---------------------------------------------------------------- two servers

  /** The statement a portal was made from, and its text. */
  datatype Portal = Portal(name: Name, sql: seq<byte>)

  /** What a server keeps besides its named statements. */
  datatype Side = Side(unnamed: Option<seq<byte>>, portals: map<Name, Portal>)

  function Lookup(t: Table, s: Side, name: Name): Option<seq<byte>> {
    if name == [] then s.unnamed else if name in t then Some(t[name]) else None
  }

  function Without(ps: map<Name, Portal>, name: Name): map<Name, Portal> {
    map p | p in ps && ps[p].name != name :: ps[p]
  }

  /** A server with the named statements `t` handles one more frame. A simple query ends the
      unnamed statement and portal; closing a statement closes the portals made from it. */
  function Handle(t: Table, s: Side, f: Frame): Side {
    match f
    case Query(_) => Side(None, s.portals - {[]})
    case Parse(name, sql) => if name == [] then s.(unnamed := Some(sql)) else s
    case Bind(portal, name) =>
      var sql := Lookup(t, s, name);
      if sql.None? then s else s.(portals := s.portals[portal := Portal(name, sql.value)])
    case Close(target, name) =>
      if target == STATEMENT then Side(if name == [] then None else s.unnamed, Without(s.portals, name))
      else if target == PORTAL then s.(portals := s.portals - {name})
      else s
    case _ => s
  }

  datatype Stage = Stage(world: World, primary: Side, shadow: Side)
  {
    /** The statement that an Execute of `portal` runs on the shadow is that of the primary. */
    predicate Same(portal: Name) {
      && portal in primary.portals && portal in shadow.portals
      && shadow.portals[portal].sql == primary.portals[portal].sql
    }
  }

  function Act(allow: Filter, g: Stage, f: Frame): Stage {
    Stage(Step(allow, g.world, f),
          Handle(g.world.primary, g.primary, f),
          if Verdict(allow, g.world.sticky, f) == Mirrored then Handle(g.world.shadow, g.shadow, f) else g.shadow)
  }

  /** Both servers after the first `n` frames of a trace. */
  function Perform(allow: Filter, trace: seq<Frame>, n: nat): Stage
    requires n <= |trace|
  {
    if n == 0 then Stage(World(Sticky({}, 0), map[], map[], {}), Side(None, map[]), Side(None, map[]))
    else Act(allow, Perform(allow, trace, n - 1), trace[n - 1])
  }

  lemma {:induction false} PerformPlays(allow: Filter, trace: seq<Frame>, n: nat)
    requires n <= |trace|
    ensures Perform(allow, trace, n).world == Play(allow, trace, n)
  {
    if n > 0 { PerformPlays(allow, trace, n - 1); }
  }

  /** The client binds only statements that the primary has. */
  predicate BindsLive(allow: Filter, trace: seq<Frame>, i: nat)
    requires i < |trace|
  {
    var g := Perform(allow, trace, i);
    trace[i].Bind? ==> Lookup(g.world.primary, g.primary, trace[i].name).Some?
  }

  predicate LegalUse(allow: Filter, trace: seq<Frame>) {
    Legal(allow, trace) && forall i :: 0 <= i < |trace| ==> BindsLive(allow, trace, i)
  }

  // ---------------------------------------------------------------- what every frame keeps

  /** A statement is hidden exactly when the filter rejects its text. */
  predicate HiddenByText(allow: Filter, w: World) {
    Simulates(w) && forall name :: name in w.primary ==> (name in w.hidden <==> !Passes(allow, w.primary[name]))
  }

  /** The shadow holds only texts that the filter passes, and of these all that the primary holds. */
  predicate Agrees(allow: Filter, g: Stage) {
    && (g.shadow.unnamed.Some? ==> Passes(allow, g.shadow.unnamed.value))
    && (g.primary.unnamed.Some? && Passes(allow, g.primary.unnamed.value) ==> g.shadow.unnamed == g.primary.unnamed)
    && (forall p :: p in g.shadow.portals ==> Passes(allow, g.shadow.portals[p].sql))
    && (forall p :: p in g.primary.portals && Passes(allow, g.primary.portals[p].sql) ==>
          p in g.shadow.portals && g.shadow.portals[p] == g.primary.portals[p])
  }

  lemma {:induction false} TextKept(allow: Filter, w: World, f: Frame)
    requires HiddenByText(allow, w) && (f.Parse? && f.name != [] ==> f.name !in w.primary)
    ensures HiddenByText(allow, Step(allow, w, f))
  {
    StepSimulates(allow, w, f);
  }

  lemma {:induction false} BindKept(allow: Filter, g: Stage, f: Frame)
    requires HiddenByText(allow, g.world) && Agrees(allow, g) && f.Bind?
    requires Lookup(g.world.primary, g.primary, f.name).Some?
    ensures Agrees(allow, Act(allow, g, f))
  {
    var sql, w := Lookup(g.world.primary, g.primary, f.name).value, g.world;
    if f.name != [] {
      assert f.name in w.shadow ==> w.shadow[f.name] == w.primary[f.name];
    }
  }

  lemma {:induction false} CloseKept(allow: Filter, g: Stage, f: Frame)
    requires Agrees(allow, g) && f.Close?
    ensures Agrees(allow, Act(allow, g, f))
  {}

  lemma {:induction false} OtherKept(allow: Filter, g: Stage, f: Frame)
    requires Agrees(allow, g) && !f.Bind? && !f.Close?
    ensures Agrees(allow, Act(allow, g, f))
  {}

  lemma {:induction false} FrameKept(allow: Filter, g: Stage, f: Frame)
    requires HiddenByText(allow, g.world) && Agrees(allow, g)
    requires f.Bind? ==> Lookup(g.world.primary, g.primary, f.name).Some?
    ensures Agrees(allow, Act(allow, g, f))
  {
    if f.Bind? { BindKept(allow, g, f); } else if f.Close? { CloseKept(allow, g, f); } else { OtherKept(allow, g, f); }
  }

  lemma {:induction false} AlwaysAgrees(allow: Filter, trace: seq<Frame>, n: nat)
    requires LegalUse(allow, trace) && n <= |trace|
    ensures HiddenByText(allow, Perform(allow, trace, n).world) && Agrees(allow, Perform(allow, trace, n))
  {
    if n > 0 {
      AlwaysAgrees(allow, trace, n - 1);
      PerformPlays(allow, trace, n - 1);
      assert BindsLive(allow, trace, n - 1) && LegalAt(allow, trace, n - 1);
      TextKept(allow, Perform(allow, trace, n - 1).world, trace[n - 1]);
      FrameKept(allow, Perform(allow, trace, n - 1), trace[n - 1]);
    }
  }

  // ---------------------------------------------------------------- what an Execute runs

  /** Every Execute is mirrored, and at every point of every legal trace, overflows and unnamed
      statements included, it runs the same statement on both sides if and only if the filter
      passes the text that its portal is bound to. */
  lemma {:induction false} RunsSameExactly(allow: Filter, trace: seq<Frame>, n: nat, portal: Name)
    requires LegalUse(allow, trace) && n <= |trace|
    ensures var g := Perform(allow, trace, n);
      && Verdict(allow, g.world.sticky, Execute(portal)) == Mirrored
      && (portal in g.primary.portals ==> (g.Same(portal) <==> Passes(allow, g.primary.portals[portal].sql)))
  {
    AlwaysAgrees(allow, trace, n);
  }

  /** The last Bind of `portal` among the first `n` frames. */
  function LastBind(trace: seq<Frame>, n: nat, portal: Name): (i: Option<nat>)
    requires n <= |trace|
    ensures i.Some? ==> i.value < n && trace[i.value].Bind? && trace[i.value].portal == portal
  {
    if n == 0 then None
    else if trace[n - 1].Bind? && trace[n - 1].portal == portal then Some(n - 1)
    else LastBind(trace, n - 1, portal)
  }

  /** A portal comes from a Bind of it or is left as it was. */
  lemma {:induction false} PortalStep(t: Table, s: Side, f: Frame, portal: Name)
    requires portal in Handle(t, s, f).portals
    ensures f.Bind? && f.portal == portal && Lookup(t, s, f.name).Some? ==>
      Lookup(t, s, f.name) == Some(Handle(t, s, f).portals[portal].sql)
    ensures !(f.Bind? && f.portal == portal) ==>
      portal in s.portals && Handle(t, s, f).portals[portal] == s.portals[portal]
  {}

  /** A portal holds what its last Bind found. */
  lemma {:induction false} BoundByLast(allow: Filter, trace: seq<Frame>, n: nat, portal: Name)
    requires LegalUse(allow, trace) && n <= |trace| && portal in Perform(allow, trace, n).primary.portals
    ensures LastBind(trace, n, portal).Some?
    ensures var i := LastBind(trace, n, portal).value;
      var g := Perform(allow, trace, i);
      Lookup(g.world.primary, g.primary, trace[i].name) == Some(Perform(allow, trace, n).primary.portals[portal].sql)
  {
    var g := Perform(allow, trace, n - 1);
    assert BindsLive(allow, trace, n - 1);
    PortalStep(g.world.primary, g.primary, trace[n - 1], portal);
    if !(trace[n - 1].Bind? && trace[n - 1].portal == portal) { BoundByLast(allow, trace, n - 1, portal); }
  }

  lemma {:induction false} ResetsGrow(allow: Filter, trace: seq<Frame>, i: nat, n: nat)
    requires i <= n <= |trace|
    ensures Play(allow, trace, i).sticky.resets <= Play(allow, trace, n).sticky.resets
  {
    if i < n { ResetsGrow(allow, trace, i, n - 1); }
  }

  /** Until the first overflow, a portal bound to a named statement: its Execute runs the same
      statement on both sides if and only if the last Bind of the portal was mirrored. */
  lemma {:induction false} RunsSameIffBindMirrored(allow: Filter, trace: seq<Frame>, n: nat, portal: Name)
    requires LegalUse(allow, trace) && n <= |trace| && portal in Perform(allow, trace, n).primary.portals
    requires Play(allow, trace, n).sticky.resets == 0
    ensures var i := LastBind(trace, n, portal);
      i.Some? && (trace[i.value].name != [] ==>
        (Perform(allow, trace, n).Same(portal) <==>
         Verdict(allow, Play(allow, trace, i.value).sticky, trace[i.value]) == Mirrored))
  {
    BoundByLast(allow, trace, n, portal);
    RunsSameExactly(allow, trace, n, portal);
    var i := LastBind(trace, n, portal).value;
    if trace[i].name != [] {
      AlwaysAgrees(allow, trace, i);
      PerformPlays(allow, trace, i);
      ResetsGrow(allow, trace, i, n);
      MirroringIsConsistent(allow, trace, i, trace[i]);
    }
  }

  /** A Parse of the unnamed statement changes nothing but that statement, on the shadow only if
      the filter passes it. */
  lemma {:induction false} UnnamedParse(allow: Filter, g: Stage, sql: seq<byte>)
    ensures var h := Act(allow, g, Parse([], sql));
      && h.world == g.world && h.primary == g.primary.(unnamed := Some(sql))
      && h.shadow == (if Passes(allow, sql) then g.shadow.(unnamed := Some(sql)) else g.shadow)
  {}

  lemma {:induction false} UnnamedBind(allow: Filter, g: Stage, portal: Name)
    requires g.primary.unnamed.Some? && g.shadow.unnamed.Some?
    ensures var h := Act(allow, g, Bind(portal, []));
      && portal in h.primary.portals && h.primary.portals[portal].sql == g.primary.unnamed.value
      && portal in h.shadow.portals && h.shadow.portals[portal].sql == g.shadow.unnamed.value
  {}

  /** The unnamed statement is not tracked: anywhere in any trace, after an accepted and then a
      rejected Parse of it the Bind is mirrored and its portal bound to different statements. */
  lemma {:induction false} UnnamedRunsStale(
    allow: Filter, trace: seq<Frame>, n: nat, good: seq<byte>, bad: seq<byte>, portal: Name)
    requires n + 3 <= |trace| && Passes(allow, good) && !Passes(allow, bad)
    requires trace[n] == Parse([], good) && trace[n + 1] == Parse([], bad) && trace[n + 2] == Bind(portal, [])
    ensures var g, h := Perform(allow, trace, n + 2), Perform(allow, trace, n + 3);
      && Lookup(g.world.primary, g.primary, []) == Some(bad)
      && Verdict(allow, g.world.sticky, Bind(portal, [])) == Mirrored
      && portal in h.primary.portals && portal in h.shadow.portals
      && h.primary.portals[portal].sql == bad && h.shadow.portals[portal].sql == good
  {
    UnnamedParse(allow, Perform(allow, trace, n), good);
    UnnamedParse(allow, Perform(allow, trace, n + 1), bad);
    UnnamedBind(allow, Perform(allow, trace, n + 2), portal);
  }
}
