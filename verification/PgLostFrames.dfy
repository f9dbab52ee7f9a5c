/** The shadow when mirrored frames are lost on the way, as they are when its queue is full or its
    connection dead. A server is followed frame by frame with every statement tagged by the Parse
    that made it; it may hear any part of any trace. This says exactly which statements of the
    primary the shadow then has, lacks, or takes for an earlier one. */
module PgLostFrames {
  import opened Network
  import opened PgMessages
  import opened PgMirrorPolicy
  import PgPortals

  // ---------------------------------------------------------------- a server that hears a part

  /** A statement: where in the trace its Parse stands, and its text. */
  datatype Made = Made(parse: nat, sql: seq<byte>)

  /** A portal: the name and the statement it was bound to. */
  datatype Bound = Bound(name: Name, made: Made)

  /** Statements, the unnamed one under the empty name, and portals. */
  datatype Server = Server(stmts: map<Name, Made>, portals: map<Name, Bound>)

  function Without(ps: map<Name, Bound>, name: Name): map<Name, Bound> {
    map p | p in ps && ps[p].name != name :: ps[p]
  }

  /** The server handles the frame at index `i` of the trace. */
  function Take(s: Server, f: Frame, i: nat): Server {
    match f
    case Query(_) => Server(s.stmts - {[]}, s.portals - {[]})
    case Parse(name, sql) =>
      if name == [] || name !in s.stmts then s.(stmts := s.stmts[name := Made(i, sql)]) else s
    case Bind(portal, name) =>
      if name in s.stmts then s.(portals := s.portals[portal := Bound(name, s.stmts[name])]) else s
    case Close(target, name) =>
      if target == STATEMENT then Server(s.stmts - {name}, Without(s.portals, name))
      else if target == PORTAL then s.(portals := s.portals - {name})
      else s
    case _ => s
  }

  /** A server that hears those of the first `n` frames that `heard` says. */
  function Hears(trace: seq<Frame>, heard: seq<bool>, n: nat): Server
    requires n <= |trace| && n <= |heard|
  {
    if n == 0 then Server(map[], map[])
    else
      var s := Hears(trace, heard, n - 1);
      if heard[n - 1] then Take(s, trace[n - 1], n - 1) else s
  }

  function All(n: nat): seq<bool> { seq(n, i => true) }

  /** The primary hears everything. */
  function Primary(trace: seq<Frame>, n: nat): Server
    requires n <= |trace|
  {
    Hears(trace, All(|trace|), n)
  }

  /** The client does not Parse a name in use and binds only what the primary has. */
  predicate Proper(trace: seq<Frame>) {
    forall i :: 0 <= i < |trace| ==> ProperAt(trace, i)
  }

  predicate ProperAt(trace: seq<Frame>, i: nat)
    requires i < |trace|
  {
    && (trace[i].Parse? && trace[i].name != [] ==> trace[i].name !in Primary(trace, i).stmts)
    && (trace[i].Bind? ==> trace[i].name in Primary(trace, i).stmts)
  }

  // ---------------------------------------------------------------- statements, by history

  /** The frame ends the statement `name`. */
  predicate Ends(f: Frame, name: Name) {
    (f.Close? && f.target == STATEMENT && f.name == name) || (f.Query? && name == [])
  }

  predicate Makes(f: Frame, name: Name) { f.Parse? && f.name == name }

  /** A Parse of `name` that was heard at `i`, and nothing heard before `n` that ends it. */
  predicate Alive(trace: seq<Frame>, heard: seq<bool>, i: nat, n: nat, name: Name)
    requires i < n <= |trace| && n <= |heard|
  {
    heard[i] && Makes(trace[i], name) && forall k :: i < k < n && heard[k] ==> !Ends(trace[k], name)
  }

  lemma {:induction false} TakeHolds(s: Server, f: Frame, i: nat, name: Name)
    ensures name in Take(s, f, i).stmts <==> Makes(f, name) || (name in s.stmts && !Ends(f, name))
    ensures name in s.stmts && !Ends(f, name) && !Makes(f, name) ==>
      name in Take(s, f, i).stmts && Take(s, f, i).stmts[name] == s.stmts[name]
    ensures Makes(f, name) ==>
      && name in Take(s, f, i).stmts
      && Take(s, f, i).stmts[name] == if name == [] || name !in s.stmts then Made(i, f.sql) else s.stmts[name]
  {}

  lemma {:induction false} HeldWitness(trace: seq<Frame>, heard: seq<bool>, n: nat, name: Name) returns (i: nat)
    requires n <= |trace| && n <= |heard| && name in Hears(trace, heard, n).stmts
    ensures i < n && Alive(trace, heard, i, n, name)
  {
    TakeHolds(Hears(trace, heard, n - 1), trace[n - 1], n - 1, name);
    if heard[n - 1] && Makes(trace[n - 1], name) {
      i := n - 1;
    } else {
      i := HeldWitness(trace, heard, n - 1, name);
    }
  }

  lemma {:induction false} AliveHeld(trace: seq<Frame>, heard: seq<bool>, i: nat, n: nat, name: Name)
    requires i < n <= |trace| && n <= |heard| && Alive(trace, heard, i, n, name)
    ensures name in Hears(trace, heard, n).stmts
  {
    TakeHolds(Hears(trace, heard, n - 1), trace[n - 1], n - 1, name);
    if i < n - 1 { AliveHeld(trace, heard, i, n - 1, name); }
  }

  /** Whatever part of whatever trace a server hears, it has a statement of that name if and only
      if it heard some Parse of it and nothing since that ends it. */
  lemma {:induction false} HoldsExactly(trace: seq<Frame>, heard: seq<bool>, n: nat, name: Name)
    requires n <= |trace| && n <= |heard|
    ensures name in Hears(trace, heard, n).stmts <==>
      exists i :: 0 <= i < n && Alive(trace, heard, i, n, name)
  {
    if name in Hears(trace, heard, n).stmts { var i := HeldWitness(trace, heard, n, name); }
    forall i | 0 <= i < n && Alive(trace, heard, i, n, name) ensures name in Hears(trace, heard, n).stmts {
      AliveHeld(trace, heard, i, n, name);
    }
  }

  /** What neither ends nor makes a statement leaves it as it was. */
  lemma {:induction false} StatementKept(trace: seq<Frame>, heard: seq<bool>, i: nat, n: nat, name: Name)
    requires i <= n <= |trace| && n <= |heard|
    requires forall k :: i <= k < n ==> !Ends(trace[k], name) && !Makes(trace[k], name)
    ensures var s, t := Hears(trace, heard, i).stmts, Hears(trace, heard, n).stmts;
      (name in t <==> name in s) && (name in s ==> t[name] == s[name])
  {
    if i < n {
      StatementKept(trace, heard, i, n - 1, name);
      TakeHolds(Hears(trace, heard, n - 1), trace[n - 1], n - 1, name);
    }
  }

  /** On a proper trace a live statement of the primary has not been touched since its Parse. */
  lemma {:induction false} Untouched(trace: seq<Frame>, n: nat, name: Name)
    requires Proper(trace) && n <= |trace| && name in Primary(trace, n).stmts
    ensures var i := Primary(trace, n).stmts[name].parse;
      && i < n && Makes(trace[i], name)
      && forall k :: i < k < n ==> !Ends(trace[k], name) && !Makes(trace[k], name)
  {
    TakeHolds(Primary(trace, n - 1), trace[n - 1], n - 1, name);
    assert ProperAt(trace, n - 1);
    if !Makes(trace[n - 1], name) { Untouched(trace, n - 1, name); }
  }

  /** Of a live statement of the primary, made by the Parse at `i`, a server that hears any part
      of the trace has: that very statement exactly when it heard that Parse and had none of the
      name then, or the name is empty; nothing exactly when it did not hear that Parse and had
      none of the name then; in all other cases an earlier statement of the name. */
  lemma {:induction false} LiveExactly(trace: seq<Frame>, heard: seq<bool>, n: nat, name: Name)
    requires Proper(trace) && n <= |trace| && |heard| == |trace| && name in Primary(trace, n).stmts
    ensures var i := Primary(trace, n).stmts[name].parse;
      && i < n
      && var mine, before := Hears(trace, heard, n).stmts, Hears(trace, heard, i).stmts;
         && (name in mine && mine[name].parse == i <==> heard[i] && (name == [] || name !in before))
         && (name !in mine <==> !heard[i] && name !in before)
         && (name in mine && mine[name].parse != i ==> name in before && mine[name] == before[name])
  {
    Untouched(trace, n, name);
    var i := Primary(trace, n).stmts[name].parse;
    StatementKept(trace, heard, i + 1, n, name);
    TakeHolds(Hears(trace, heard, i), trace[i], i, name);
    if name in Hears(trace, heard, i).stmts { TagsBelow(trace, heard, i, name); }
  }

  lemma {:induction false} TagsBelow(trace: seq<Frame>, heard: seq<bool>, n: nat, name: Name)
    requires n <= |trace| && n <= |heard| && name in Hears(trace, heard, n).stmts
    ensures var m := Hears(trace, heard, n).stmts[name]; m.parse < n && trace[m.parse] == Parse(name, m.sql)
  {
    TakeHolds(Hears(trace, heard, n - 1), trace[n - 1], n - 1, name);
    if !(heard[n - 1] && Makes(trace[n - 1], name)) || name in Hears(trace, heard, n - 1).stmts {
      if name in Hears(trace, heard, n - 1).stmts { TagsBelow(trace, heard, n - 1, name); }
    }
  }

  // ---------------------------------------------------------------- the two accounts agree

  /** A server of `PgPortals`, its named statements apart. */
  datatype Texts = Texts(named: Table, side: PgPortals.Side)

  function Named(stmts: map<Name, Made>): Table { map name | name in stmts && name != [] :: stmts[name].sql }

  function Unnamed(stmts: map<Name, Made>): Option<seq<byte>> { if [] in stmts then Some(stmts[[]].sql) else None }

  function Portals(ps: map<Name, Bound>): map<Name, PgPortals.Portal> {
    map p | p in ps :: PgPortals.Portal(ps[p].name, ps[p].made.sql)
  }

  /** A server without its tags. */
  function Erase(s: Server): Texts {
    Texts(Named(s.stmts), PgPortals.Side(Unnamed(s.stmts), Portals(s.portals)))
  }

  lemma {:induction false} NamedStep(s: Server, f: Frame, i: nat)
    ensures Named(Take(s, f, i).stmts) == Serve(Named(s.stmts), f)
  {}

  lemma {:induction false} PortalsStep(s: Server, f: Frame, i: nat)
    ensures var t := Erase(s); Portals(Take(s, f, i).portals) == PgPortals.Handle(t.named, t.side, f).portals
  {}

  function Serves(t: Texts, f: Frame): Texts { Texts(Serve(t.named, f), PgPortals.Handle(t.named, t.side, f)) }

  /** Handling a frame and then forgetting the tags is handling it without tags. */
  lemma {:induction false} EraseStep(s: Server, f: Frame, i: nat)
    ensures Erase(Take(s, f, i)) == Serves(Erase(s), f)
  {
    NamedStep(s, f, i);
    PortalsStep(s, f, i);
  }

  function HearsTexts(trace: seq<Frame>, heard: seq<bool>, n: nat): Texts
    requires n <= |trace| && n <= |heard|
  {
    if n == 0 then Texts(map[], PgPortals.Side(None, map[]))
    else
      var s := HearsTexts(trace, heard, n - 1);
      if heard[n - 1] then Serves(s, trace[n - 1]) else s
  }

  lemma {:induction false} EraseNone(s: Server)
    requires s.stmts == map[] && s.portals == map[]
    ensures Erase(s) == Texts(map[], PgPortals.Side(None, map[]))
  {
    assert Named(s.stmts) == map[] && Portals(s.portals) == map[];
  }

  lemma {:induction false} ErasesTo(trace: seq<Frame>, heard: seq<bool>, n: nat)
    requires n <= |trace| && n <= |heard|
    ensures Erase(Hears(trace, heard, n)) == HearsTexts(trace, heard, n)
  {
    if n == 0 {
      EraseNone(Hears(trace, heard, n));
    } else {
      ErasesTo(trace, heard, n - 1);
      EraseStep(Hears(trace, heard, n - 1), trace[n - 1], n - 1);
    }
  }

  function PrimaryOf(g: PgPortals.Stage): Texts { Texts(g.world.primary, g.primary) }

  function ShadowOf(g: PgPortals.Stage): Texts { Texts(g.world.shadow, g.shadow) }

  lemma {:induction false} ActHears(allow: Filter, g: PgPortals.Stage, f: Frame)
    ensures var h := PgPortals.Act(allow, g, f);
      && PrimaryOf(h) == Serves(PrimaryOf(g), f)
      && ShadowOf(h) == if Verdict(allow, g.world.sticky, f) == Mirrored then Serves(ShadowOf(g), f) else ShadowOf(g)
  {}

  lemma {:induction false} PrimaryHears(allow: Filter, trace: seq<Frame>, n: nat)
    requires n <= |trace|
    ensures PrimaryOf(PgPortals.Perform(allow, trace, n)) == HearsTexts(trace, All(|trace|), n)
  {
    if n > 0 {
      PrimaryHears(allow, trace, n - 1);
      ActHears(allow, PgPortals.Perform(allow, trace, n - 1), trace[n - 1]);
    }
  }

  lemma {:induction false} ShipsVerdict(allow: Filter, trace: seq<Frame>, i: nat)
    requires i < |trace|
    ensures ShipsAll(allow, trace)[i] <==>
      Verdict(allow, PgPortals.Perform(allow, trace, i).world.sticky, trace[i]) == Mirrored
  {
    PgPortals.PerformPlays(allow, trace, i);
    PlayTracksPolicy(allow, trace, i);
  }

  lemma {:induction false} ShadowHears(allow: Filter, trace: seq<Frame>, n: nat)
    requires n <= |trace|
    ensures ShadowOf(PgPortals.Perform(allow, trace, n)) == HearsTexts(trace, ShipsAll(allow, trace), n)
  {
    if n > 0 {
      ShadowHears(allow, trace, n - 1);
      ShipsVerdict(allow, trace, n - 1);
      ActHears(allow, PgPortals.Perform(allow, trace, n - 1), trace[n - 1]);
    }
  }

  /** The primary hears everything and, if nothing is lost, the shadow what is mirrored: without
      their tags these servers are those of `PgPortals`. */
  lemma {:induction false} LosslessAgrees(allow: Filter, trace: seq<Frame>, n: nat)
    requires n <= |trace|
    ensures PrimaryOf(PgPortals.Perform(allow, trace, n)) == Erase(Primary(trace, n))
    ensures ShadowOf(PgPortals.Perform(allow, trace, n)) == Erase(Hears(trace, ShipsAll(allow, trace), n))
  {
    PrimaryHears(allow, trace, n);
    ErasesTo(trace, All(|trace|), n);
    ShadowHears(allow, trace, n);
    ErasesTo(trace, ShipsAll(allow, trace), n);
  }

  /** What the primary has under a name, in the terms of `PgMirrorPolicy` and `PgPortals`. */
  lemma {:induction false} PrimaryText(allow: Filter, trace: seq<Frame>, n: nat, name: Name)
    requires n <= |trace|
    ensures var g, stmts := PgPortals.Perform(allow, trace, n), Primary(trace, n).stmts;
      && (PgPortals.Lookup(g.world.primary, g.primary, name).Some? <==> name in stmts)
      && (name != [] ==> (name in Play(allow, trace, n).primary <==> name in stmts))
      && (name != [] && name in stmts ==> Play(allow, trace, n).primary[name] == stmts[name].sql)
  {
    PrimaryHears(allow, trace, n);
    ErasesTo(trace, All(|trace|), n);
    PgPortals.PerformPlays(allow, trace, n);
    var g := PgPortals.Perform(allow, trace, n);
    assert Named(Primary(trace, n).stmts) == g.world.primary && Unnamed(Primary(trace, n).stmts) == g.primary.unnamed;
  }

  lemma {:induction false} LegalIsProper(allow: Filter, trace: seq<Frame>)
    requires PgPortals.LegalUse(allow, trace)
    ensures Proper(trace)
  {
    forall i | 0 <= i < |trace| ensures ProperAt(trace, i) {
      assert LegalAt(allow, trace, i) && PgPortals.BindsLive(allow, trace, i);
      if trace[i].Parse? || trace[i].Bind? { PrimaryText(allow, trace, i, trace[i].name); }
    }
  }

  // ---------------------------------------------------------------- the shadow, with losses

  /** Which frames reach the shadow: those mirrored and not lost. */
  function Reached(allow: Filter, trace: seq<Frame>, lost: seq<bool>): seq<bool>
    requires |lost| == |trace|
  {
    seq(|trace|, i requires 0 <= i < |trace| => Ships(allow, trace, i) && !lost[i])
  }

  /** Whatever frames are lost, overflows included: a frame about a live statement, made by the
      Parse at `i`, is mirrored to a shadow that lacks it if and only if the policy does not track
      the name, that Parse was filtered or lost, and each earlier Parse of the name that reached
      the shadow was followed, before `i`, by a Close that reached it too. */
  lemma {:induction false} DanglesUnderLoss(allow: Filter, trace: seq<Frame>, lost: seq<bool>, n: nat, f: Frame)
    requires PgPortals.LegalUse(allow, trace) && |lost| == |trace| && n <= |trace|
    requires Refers(f) && f.name in Primary(trace, n).stmts
    ensures var i, heard := Primary(trace, n).stmts[f.name].parse, Reached(allow, trace, lost);
      && i < n && Makes(trace[i], f.name)
      && (Verdict(allow, After(allow, trace, n), f) == Mirrored && f.name !in Hears(trace, heard, n).stmts <==>
          f.name !in After(allow, trace, n).names && (!Passes(allow, trace[i].sql) || lost[i]) &&
          !(exists j :: 0 <= j < i && Alive(trace, heard, j, i, f.name)))
  {
    LegalIsProper(allow, trace);
    var i, heard := Primary(trace, n).stmts[f.name].parse, Reached(allow, trace, lost);
    Untouched(trace, n, f.name);
    LiveExactly(trace, heard, n, f.name);
    HoldsExactly(trace, heard, i, f.name);
  }

  /** And the shadow takes it for an earlier statement if and only if some earlier Parse of the
      name that reached it was not followed, before `i`, by a Close that reached it. */
  lemma {:induction false} StaleUnderLoss(allow: Filter, trace: seq<Frame>, lost: seq<bool>, n: nat, name: Name)
    requires PgPortals.LegalUse(allow, trace) && |lost| == |trace| && n <= |trace|
    requires name != [] && name in Primary(trace, n).stmts
    ensures var i, heard := Primary(trace, n).stmts[name].parse, Reached(allow, trace, lost);
      && i < n
      && var mine := Hears(trace, heard, n).stmts;
         (name in mine && mine[name].parse != i <==> exists j :: 0 <= j < i && Alive(trace, heard, j, i, name))
  {
    LegalIsProper(allow, trace);
    LiveExactly(trace, Reached(allow, trace, lost), n, name);
    HoldsExactly(trace, Reached(allow, trace, lost), Primary(trace, n).stmts[name].parse, name);
  }

  lemma {:induction false} HiddenText(allow: Filter, trace: seq<Frame>, n: nat)
    requires Legal(allow, trace) && n <= |trace|
    ensures PgPortals.HiddenByText(allow, Play(allow, trace, n))
  {
    if n > 0 {
      HiddenText(allow, trace, n - 1);
      assert LegalAt(allow, trace, n - 1);
      PgPortals.TextKept(allow, Play(allow, trace, n - 1), trace[n - 1]);
    }
  }

  /** Until the first overflow only losses do harm: a frame about a live statement is mirrored to
      a shadow that lacks it if and only if the filter passed its Parse, that Parse was lost, and
      no earlier statement of the name lingers on the shadow. */
  lemma {:induction false} DanglesByLossAlone(allow: Filter, trace: seq<Frame>, lost: seq<bool>, n: nat, f: Frame)
    requires PgPortals.LegalUse(allow, trace) && |lost| == |trace| && n <= |trace|
    requires Refers(f) && f.name in Primary(trace, n).stmts && After(allow, trace, n).resets == 0
    ensures var i, heard := Primary(trace, n).stmts[f.name].parse, Reached(allow, trace, lost);
      && i < n && Makes(trace[i], f.name)
      && (Verdict(allow, After(allow, trace, n), f) == Mirrored && f.name !in Hears(trace, heard, n).stmts <==>
          Passes(allow, trace[i].sql) && lost[i] && !(exists j :: 0 <= j < i && Alive(trace, heard, j, i, f.name)))
  {
    DanglesUnderLoss(allow, trace, lost, n, f);
    Tracked(allow, trace, n, f.name);
  }

  lemma {:induction false} HiddenTracked(allow: Filter, w: World, name: Name)
    requires PgPortals.HiddenByText(allow, w) && w.sticky.resets == 0 && name in w.primary
    ensures name in w.sticky.names <==> !Passes(allow, w.primary[name])
  {}

  lemma {:induction false} Tracked(allow: Filter, trace: seq<Frame>, n: nat, name: Name)
    requires PgPortals.LegalUse(allow, trace) && n <= |trace| && name != []
    requires name in Primary(trace, n).stmts && After(allow, trace, n).resets == 0
    ensures var m := Primary(trace, n).stmts[name];
      && m.parse < n && trace[m.parse] == Parse(name, m.sql)
      && (name in After(allow, trace, n).names <==> !Passes(allow, m.sql))
  {
    TagsBelow(trace, All(|trace|), n, name);
    PrimaryText(allow, trace, n, name);
    PlayTracksPolicy(allow, trace, n);
    HiddenText(allow, trace, n);
    HiddenTracked(allow, Play(allow, trace, n), name);
  }

  /** A lost Close, anywhere in any trace: the next statement of that name reaches the shadow, which
      goes on with the one before. */
  lemma {:induction false} LostCloseGoesStale(allow: Filter, trace: seq<Frame>, lost: seq<bool>, n: nat, name: Name)
    requires |lost| == |trace| && n + 3 <= |trace| && name != []
    requires Makes(trace[n], name) && trace[n + 1] == Close(STATEMENT, name) && Makes(trace[n + 2], name)
    requires Passes(allow, trace[n].sql) && Passes(allow, trace[n + 2].sql) && !lost[n] && lost[n + 1] && !lost[n + 2]
    requires name !in Hears(trace, Reached(allow, trace, lost), n).stmts
    ensures var mine := Hears(trace, Reached(allow, trace, lost), n + 3).stmts; name in mine && mine[name].parse == n
    ensures var primary := Primary(trace, n + 3).stmts; name in primary && primary[name].parse == n + 2
  {
    var heard := Reached(allow, trace, lost);
    assert heard[n] && !heard[n + 1] && heard[n + 2];
    var s := Hears(trace, heard, n);
    assert Hears(trace, heard, n + 1) == Take(s, trace[n], n);
    assert Hears(trace, heard, n + 2) == Take(s, trace[n], n);
    assert Primary(trace, n + 2) == Take(Primary(trace, n + 1), trace[n + 1], n + 1);
  }

  // ---------------------------------------------------------------- what an Execute runs, with losses

  predicate Rebinds(f: Frame, portal: Name) { f.Bind? && f.portal == portal }

  /** The frame takes the portal, made from the statement `name`, away. */
  predicate Removes(f: Frame, portal: Name, name: Name) {
    || (f.Close? && f.target == PORTAL && f.name == portal)
    || (f.Close? && f.target == STATEMENT && f.name == name)
    || (f.Query? && portal == [])
  }

  /** From `b` up to `n` nothing binds the portal anew or takes it away. */
  predicate Settled(trace: seq<Frame>, b: nat, n: nat, portal: Name, name: Name)
    requires b <= n <= |trace|
  {
    forall k :: b <= k < n ==> !Rebinds(trace[k], portal) && !Removes(trace[k], portal, name)
  }

  lemma {:induction false} TakePortal(s: Server, f: Frame, i: nat, portal: Name)
    ensures portal in s.portals && !Rebinds(f, portal) && !Removes(f, portal, s.portals[portal].name) ==>
      portal in Take(s, f, i).portals && Take(s, f, i).portals[portal] == s.portals[portal]
    ensures portal in Take(s, f, i).portals && !Rebinds(f, portal) ==>
      && portal in s.portals && Take(s, f, i).portals[portal] == s.portals[portal]
      && !Removes(f, portal, s.portals[portal].name)
    ensures Rebinds(f, portal) && f.name in s.stmts ==>
      portal in Take(s, f, i).portals && Take(s, f, i).portals[portal] == Bound(f.name, s.stmts[f.name])
    ensures Rebinds(f, portal) && f.name !in s.stmts ==> Take(s, f, i) == s
  {}

  /** A portal is made from a statement of its name. */
  lemma {:induction false} PortalNamed(trace: seq<Frame>, heard: seq<bool>, n: nat, portal: Name)
    requires n <= |trace| && n <= |heard| && portal in Hears(trace, heard, n).portals
    ensures var b := Hears(trace, heard, n).portals[portal];
      b.made.parse < n && trace[b.made.parse] == Parse(b.name, b.made.sql)
  {
    var s, f := Hears(trace, heard, n - 1), trace[n - 1];
    TakePortal(s, f, n - 1, portal);
    if heard[n - 1] && Rebinds(f, portal) && f.name in s.stmts {
      TagsBelow(trace, heard, n - 1, f.name);
    } else {
      PortalNamed(trace, heard, n - 1, portal);
    }
  }

  /** The last Bind of the primary's portal: what it was bound to, and that nothing since has
      bound it again or taken it away. */
  lemma {:induction false} LastBound(trace: seq<Frame>, n: nat, portal: Name) returns (b: nat)
    requires Proper(trace) && n <= |trace| && portal in Primary(trace, n).portals
    ensures b < n && Rebinds(trace[b], portal) && trace[b].name in Primary(trace, b).stmts
    ensures Primary(trace, n).portals[portal] == Bound(trace[b].name, Primary(trace, b).stmts[trace[b].name])
    ensures Settled(trace, b + 1, n, portal, trace[b].name)
  {
    TakePortal(Primary(trace, n - 1), trace[n - 1], n - 1, portal);
    assert ProperAt(trace, n - 1);
    if Rebinds(trace[n - 1], portal) {
      b := n - 1;
    } else {
      b := LastBound(trace, n - 1, portal);
    }
  }

  /** The server's portal runs the statement that the Parse at `i` made. */
  predicate Runs(s: Server, portal: Name, i: nat) { portal in s.portals && s.portals[portal].made.parse == i }

  /** Frames that neither bind a portal nor take away what is made from `name` keep whether it runs
      a statement of that name. */
  lemma {:induction false} RunsKept(
    trace: seq<Frame>, heard: seq<bool>, b: nat, n: nat, portal: Name, name: Name, i: nat)
    requires b < n <= |trace| && n <= |heard| && i < |trace| && Makes(trace[i], name)
    requires Settled(trace, b + 1, n, portal, name)
    ensures Runs(Hears(trace, heard, n), portal, i) <==> Runs(Hears(trace, heard, b + 1), portal, i)
  {
    if b + 1 < n {
      RunsKept(trace, heard, b, n - 1, portal, name, i);
      var s, f := Hears(trace, heard, n - 1), trace[n - 1];
      TakePortal(s, f, n - 1, portal);
      if portal in s.portals { PortalNamed(trace, heard, n - 1, portal); }
    }
  }

  /** What an Execute runs, whatever was lost. The primary's portal was bound last by the Bind at
      `b`, to a statement made by the Parse at `i`. A server that heard any part of the trace runs
      that same statement if and only if: it heard this Bind and its own statement of the name was
      then the one made at `i`; or it missed the Bind, or had no statement of the name, and its
      portal ran the one made at `i` before. */
  lemma {:induction false} RunsSameUnderLoss(trace: seq<Frame>, heard: seq<bool>, n: nat, portal: Name) returns (b: nat)
    requires Proper(trace) && n <= |trace| && |heard| == |trace| && portal in Primary(trace, n).portals
    ensures b < n && Rebinds(trace[b], portal) && forall k :: b < k < n ==> !Rebinds(trace[k], portal)
    ensures var i, name, before := Primary(trace, n).portals[portal].made.parse, trace[b].name, Hears(trace, heard, b);
      Runs(Hears(trace, heard, n), portal, i) <==>
        if heard[b] && name in before.stmts then before.stmts[name].parse == i else Runs(before, portal, i)
  {
    b := LastBound(trace, n, portal);
    var name, i := trace[b].name, Primary(trace, n).portals[portal].made.parse;
    PortalNamed(trace, All(|trace|), n, portal);
    RunsKept(trace, heard, b, n, portal, name, i);
    TakePortal(Hears(trace, heard, b), trace[b], b, portal);
  }
}
