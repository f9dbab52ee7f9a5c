/** One client connection from its first byte: startup, authentication and query loop in
    sequence. The primary is sent the client's bytes without the encryption probes, the client
    the refusals of those probes and the primary's bytes. */
module PgConnection {
  import opened Network
  import opened PgMessages
  import opened PgMirrorPolicy
  import PgProxy
  import PgStartup

  // ---------------------------------------------------------------- the pure connection

  /** All that goes to the primary, to the client and to the shadow. */
  datatype Flow = Flow(up: seq<byte>, down: seq<byte>, offers: seq<Packet>)

  /** From authentication on. */
  function Session(allow: Filter, c: seq<byte>, p: seq<byte>): Flow {
    var a := PgStartup.Exchange(c, p);
    if !a.ready then Flow(a.sent, a.got, [])
    else
      var q := PgProxy.Follow(a.client, a.primary);
      Flow(a.sent + q.Sent(), a.got + q.Got(), PgProxy.OffersOf(allow, q.Messages()))
  }

  function Connection(allow: Filter, c: seq<byte>, p: seq<byte>): Flow {
    var s := PgStartup.Startup(c);
    if !s.outcome.Started? then Flow(s.outcome.Sent(), s.refusals, [])
    else
      var f := Session(allow, s.rest, p);
      Flow(s.outcome.Sent() + f.up, s.refusals + f.down, f.offers)
  }

  // ---------------------------------------------------------------- the connection as it runs

  /** How far a connection came after its startup, and what it let out after its last complete
      step. */
  datatype Stay =
    | AtAuthentication(dialogue: PgStartup.Dialogue, left: PgStartup.Leftover)
    | AtQueries(dialogue: PgStartup.Dialogue, talk: PgProxy.Talk, last: PgProxy.Tail)
  {
    predicate Genuine(allow: Filter) {
      && dialogue.Genuine()
      && match this
         case AtAuthentication(d, left) => left.Fits(d)
         case AtQueries(d, talk, last) =>
           && d.Then? && d.message.kind == READY && talk.Genuine() && last.Fits(talk, allow)
           && talk.Origin() == PgProxy.Opening(d.client, d.primary)
    }
    predicate Began(c: seq<byte>, p: seq<byte>) { dialogue.Origin() == PgStartup.Opening(c, p) }
    function Up(): seq<byte> {
      dialogue.Sent() + if AtAuthentication? then left.sent else talk.Sent() + last.sent
    }
    function Down(): seq<byte> {
      dialogue.Got() + if AtAuthentication? then left.got else talk.Got() + last.Got()
    }
    function Offers(allow: Filter): seq<Packet> {
      if AtAuthentication? then [] else talk.Offers(allow) + last.offered
    }
  }

  datatype Visit =
    | AtStartup(probes: PgStartup.Probes, left: PgStartup.Leftover)
    | Beyond(probes: PgStartup.Probes, startup: Packet, stay: Stay)
  {
    predicate Genuine(allow: Filter) {
      && probes.Genuine()
      && if AtStartup? then PgStartup.StartupTorn(probes.rest, left) else stay.Genuine(allow)
    }
    predicate Began(c: seq<byte>, p: seq<byte>) {
      && probes.Origin() == c
      && (Beyond? ==>
            var s := PgStartup.Startup(probes.rest);
            s == PgStartup.StartupCourse([], PgStartup.Started(startup), s.rest) && stay.Began(s.rest, p))
    }
    function Up(): seq<byte> { if AtStartup? then left.sent else startup.payload + stay.Up() }
    function Down(): seq<byte> { if AtStartup? then [] else stay.Down() }
    function Refusals(): seq<byte> { if AtStartup? then probes.Answers() + left.got else probes.Answers() }
    function Offers(allow: Filter): seq<Packet> { if AtStartup? then [] else stay.Offers(allow) }
  }

  /** The query loop, from its start. */
  method RunQueries(client: Conn, primary: Conn, toPrimary: Sink, toClient: Sink, policy: MirrorPolicy)
    returns (offered: seq<Packet>, ghost talk: PgProxy.Talk, ghost last: PgProxy.Tail)
    requires client != primary && toPrimary != toClient && policy.State() == Sticky({}, 0)
    modifies client, primary, toPrimary, toClient, policy
    ensures talk.Genuine() && talk.Origin() == PgProxy.Opening(old(client.Stream()), old(primary.Stream()))
    ensures last.Fits(talk, policy.allow)
    ensures last.passed <==> last.sent != [] && toPrimary.refusals == old(toPrimary.refusals)
    ensures toPrimary.written == old(toPrimary.written) + (talk.Sent() + last.sent)
    ensures toClient.written == old(toClient.written) + (talk.Got() + last.Got())
    ensures offered == talk.Offers(policy.allow) + last.offered
    ensures old(client.Quiet() && primary.Quiet() && toPrimary.Open() && toClient.Open()) ==>
      var course := PgProxy.Follow(old(client.Stream()), old(primary.Stream()));
      && toPrimary.written == old(toPrimary.written) + course.Sent()
      && toClient.written == old(toClient.written) + course.Got()
      && offered == PgProxy.OffersOf(policy.allow, course.Messages())
  {
    ghost var outP, outC := toPrimary.written, toClient.written;
    var loop := new PgProxy.QueryLoop(client, primary, toPrimary, toClient, policy);
    ghost var ending;
    talk, last, ending := loop.Run();
    offered := loop.offered;
    OntoPlain(outP, talk.Sent(), last.sent);
    OntoPlain(outC, talk.Got(), last.Got());
  }

  /** Authentication and, if it succeeds, the query loop. */
  method RunSession(client: Conn, primary: Conn, toPrimary: Sink, toClient: Sink, policy: MirrorPolicy)
    returns (offered: seq<Packet>, ghost stay: Stay)
    requires client != primary && toPrimary != toClient && policy.State() == Sticky({}, 0)
    modifies client, primary, toPrimary, toClient, policy
    ensures stay.Genuine(policy.allow) && stay.Began(old(client.Stream()), old(primary.Stream()))
    ensures toPrimary.written == old(toPrimary.written) + stay.Up()
    ensures toClient.written == old(toClient.written) + stay.Down()
    ensures offered == stay.Offers(policy.allow)
    ensures stay.AtQueries? ==>
      (stay.last.passed <==> stay.last.sent != [] && toPrimary.refusals == old(toPrimary.refusals))
    ensures old(client.Quiet() && primary.Quiet() && toPrimary.Open() && toClient.Open()) ==>
      var flow := Session(policy.allow, old(client.Stream()), old(primary.Stream()));
      && toPrimary.written == old(toPrimary.written) + flow.up
      && toClient.written == old(toClient.written) + flow.down
      && offered == flow.offers
  {
    ghost var outP, outC := toPrimary.written, toClient.written;
    ghost var course := PgStartup.Exchange(client.Stream(), primary.Stream());
    offered := [];
    var auth := new PgStartup.Authentication(client, primary, toPrimary, toClient);
    var ok;
    ghost var d, left;
    ok, d, left := auth.Forward();
    stay := AtAuthentication(d, left);
    OntoPlain(outP, d.Sent(), left.sent);
    OntoPlain(outC, d.Got(), left.got);
    if ok {
      ghost var talk, last;
      ghost var c, p := client.Stream(), primary.Stream();
      offered, talk, last := RunQueries(client, primary, toPrimary, toClient, policy);
      stay := AtQueries(d, talk, last);
      Regroup(outP, d.Sent(), talk.Sent() + last.sent);
      Regroup(outC, d.Got(), talk.Got() + last.Got());
      Regroup(outP, course.sent, PgProxy.Follow(c, p).Sent());
      Regroup(outC, course.got, PgProxy.Follow(c, p).Got());
    }
  }

  /** Startup, then the session if there is one. Whatever ends the connection, the visit says
      what each side has received; without faults it is what the two streams determine. */
  method HandleConnection(client: Conn, primary: Conn, toPrimary: Sink, toClient: Sink, policy: MirrorPolicy)
    returns (offered: seq<Packet>, ghost v: Visit)
    requires client != primary && toPrimary != toClient && policy.State() == Sticky({}, 0)
    modifies client, primary, toPrimary, toClient, policy
    ensures v.Genuine(policy.allow) && v.Began(old(client.Stream()), old(primary.Stream()))
    ensures toPrimary.written == old(toPrimary.written) + v.Up()
    ensures toClient.written == old(toClient.written) + (v.Refusals() + v.Down())
    ensures offered == v.Offers(policy.allow)
    ensures v.Beyond? && v.stay.AtQueries? ==>
      (v.stay.last.passed <==> v.stay.last.sent != [] && toPrimary.refusals == old(toPrimary.refusals))
    ensures old(client.Quiet() && primary.Quiet() && toPrimary.Open() && toClient.Open()) ==>
      var flow := Connection(policy.allow, old(client.Stream()), old(primary.Stream()));
      && toPrimary.written == old(toPrimary.written) + flow.up
      && toClient.written == old(toClient.written) + flow.down
      && offered == flow.offers
  {
    ghost var c, p, outP, outC := client.Stream(), primary.Stream(), toPrimary.written, toClient.written;
    offered := [];
    var r;
    ghost var probes, left;
    r, probes, left := PgStartup.ForwardStartup(client, toClient, toPrimary);
    v := AtStartup(probes, left);
    OntoPlain(outC, probes.Answers(), left.got);
    assert outP + [] == outP && v.Refusals() + [] == v.Refusals();
    if r.Started? {
      ghost var stay;
      ghost var rest := client.Stream();
      offered, stay := RunSession(client, primary, toPrimary, toClient, policy);
      v := Beyond(probes, r.startup, stay);
      PgStartup.ProbesFollow(probes);
      assert probes.Answers() + [] == probes.Answers();
      Regroup(outP, r.startup.payload, stay.Up());
      Regroup(outC, probes.Answers(), stay.Down());
      Regroup(outP, r.startup.payload, Session(policy.allow, rest, p).up);
      Regroup(outC, probes.Answers(), Session(policy.allow, rest, p).down);
    }
  }

  // ---------------------------------------------------------------- streams without type byte zero

  /** No message of `s` has type byte zero. */
  predicate Typed(s: seq<byte>)
    decreases |s|
  {
    var m := ParseMessage(s);
    m.Message? ==> m.packet.kind != 0 && Typed(m.rest)
  }

  lemma {:induction false} TypedTorn(s: seq<byte>, torn: seq<byte>)
    requires Typed(s) && Torn(s, torn)
    ensures torn <= s
  {
    if torn != [] {
      ReserializesExactly(s);
      assert ParseMessage(s).packet.Bytes() <= s;
    }
  }

  lemma {:induction false} TypedChain(c: PgProxy.Chain)
    requires c.Genuine() && Typed(c.Origin())
    ensures Typed(c.rest) && PgProxy.ZerosIn(c) == 0
  {
    if c.Got? { TypedChain(c.before); }
  }

  lemma {:induction false} TypedTalk(t: PgProxy.Talk)
    requires t.Genuine()
    ensures Typed(t.Origin().client) ==> Typed(t.client) && PgProxy.SentZeros(t) == 0
    ensures Typed(t.Origin().primary) ==> Typed(t.primary) && PgProxy.GotZeros(t) == 0
  {
    if t.Then? {
      TypedTalk(t.before);
      if Typed(t.before.primary) { TypedChain(t.turn.reply); }
    }
  }

  lemma {:induction false} TypedStep(s: seq<byte>, done: seq<byte>, m: Packet, rest: seq<byte>)
    requires Typed(s) && ParseMessage(s) == Message(m, rest)
    ensures Typed(rest) && done + s == (done + m.Bytes()) + rest
  {
    ReserializesExactly(s);
    Regroup(done, m.Bytes(), rest);
  }

  lemma {:induction false} AnswersKept(d: PgStartup.Dialogue)
    requires d.Genuine() && Typed(d.Origin().client)
    ensures Typed(d.client) && d.Origin().client == d.Sent() + d.client
  {
    if d.Then? {
      AnswersKept(d.before);
      if d.answer.Some? {
        TypedStep(d.before.client, d.before.Sent(), d.answer.value, d.client);
      } else {
        assert d.before.Sent() + [] == d.before.Sent();
      }
    }
  }

  lemma {:induction false} ChallengesKept(d: PgStartup.Dialogue)
    requires d.Genuine() && Typed(d.Origin().primary)
    ensures Typed(d.primary) && d.Origin().primary == d.Got() + d.primary
  {
    if d.Then? {
      ChallengesKept(d.before);
      TypedStep(d.before.primary, d.before.Got(), d.message, d.primary);
    }
  }

  lemma {:induction false} PrefixUnder(a: seq<byte>, b: seq<byte>, s: seq<byte>)
    requires b <= s
    ensures a + b <= a + s
  {}

  lemma {:induction false} QueriesKept(t: PgProxy.Talk, last: PgProxy.Tail, allow: Filter)
    requires t.Genuine() && last.Fits(t, allow)
    ensures Typed(t.Origin().client) ==> t.Sent() + last.sent <= t.Origin().client
    ensures Typed(t.Origin().primary) ==> t.Got() + last.Got() <= t.Origin().primary
  {
    TypedTalk(t);
    PgProxy.BytesKeptExactly(t);
    if Typed(t.Origin().client) {
      TypedTorn(t.client, last.sent);
      PrefixUnder(t.Sent(), last.sent, t.client);
    }
    if Typed(t.Origin().primary) {
      TypedChain(last.reply);
      PgProxy.ChainConsumes(last.reply);
      TypedTorn(last.reply.rest, last.torn);
      PrefixUnder(last.reply.Bytes(), last.torn, last.reply.rest);
      PrefixUnder(t.Got(), last.Got(), t.primary);
    }
  }

  lemma {:induction false} StayKept(stay: Stay, allow: Filter, c: seq<byte>, p: seq<byte>)
    requires stay.Genuine(allow) && stay.Began(c, p)
    ensures Typed(c) ==> stay.Up() <= c
    ensures Typed(p) ==> stay.Down() <= p
  {
    var d := stay.dialogue;
    if stay.AtQueries? { QueriesKept(stay.talk, stay.last, allow); }
    if Typed(c) {
      AnswersKept(d);
      if stay.AtAuthentication? { TypedTorn(d.client, stay.left.sent); }
      var sent := if stay.AtAuthentication? then stay.left.sent else stay.talk.Sent() + stay.last.sent;
      PrefixUnder(d.Sent(), sent, d.client);
    }
    if Typed(p) {
      ChallengesKept(d);
      if stay.AtAuthentication? { TypedTorn(d.primary, stay.left.got); }
      var got := if stay.AtAuthentication? then stay.left.got else stay.talk.Got() + stay.last.Got();
      PrefixUnder(d.Got(), got, d.primary);
    }
  }

  lemma {:induction false} StartedKept(s: seq<byte>, startup: Packet, rest: seq<byte>, up: seq<byte>)
    requires PgStartup.Startup(s) == PgStartup.StartupCourse([], PgStartup.Started(startup), rest) && up <= rest
    ensures startup.payload + up <= s
  {
    PgStartup.StartupSplits(s);
    PrefixUnder(startup.payload, up, rest);
  }

  lemma {:induction false} StartupTornKept(s: seq<byte>, left: PgStartup.Leftover)
    requires PgStartup.StartupTorn(s, left)
    ensures left.sent <= s && |left.got| <= 1
  {
    if ParseStartup(s).Message? { PgStartup.StartupSplits(s); }
  }

  /** Transparency of a connection, whatever faults end it and wherever: if no message has type
      byte zero, the client's stream begins with the probes and then all that the primary was
      sent, and the primary's stream with all that the client was sent besides the refusals, of
      which there is one for each probe. */
  lemma {:induction false} ConnectionKept(v: Visit, allow: Filter, c: seq<byte>, p: seq<byte>)
    requires v.Genuine(allow) && v.Began(c, p)
    ensures Typed(PgStartup.Startup(c).rest) ==> v.probes.Bytes() + v.Up() <= c
    ensures Typed(p) ==> v.Down() <= p
    ensures v.probes.Answers() <= v.Refusals() && |v.probes.Answers()| * 8 == |v.probes.Bytes()|
    ensures |v.Refusals()| <= |v.probes.Answers()| + 1 && (v.Beyond? ==> v.Refusals() == v.probes.Answers())
  {
    PgStartup.ProbesSplit(v.probes);
    PgStartup.ProbesFollow(v.probes);
    var rest := PgStartup.Startup(v.probes.rest).rest;
    if v.Beyond? { StayKept(v.stay, allow, rest, p); } else { StartupTornKept(v.probes.rest, v.left); }
    if Typed(rest) {
      if v.Beyond? { StartedKept(v.probes.rest, v.startup, rest, v.stay.Up()); }
      PrefixUnder(v.probes.Bytes(), v.Up(), v.probes.rest);
    }
  }

  /** In the query loop the client has been told "ready" once for the authentication and once
      for each Query and Sync. */
  lemma {:induction false} ReadyOnce(stay: Stay, allow: Filter)
    requires stay.Genuine(allow) && stay.AtQueries?
    ensures PgStartup.ReadiesSeen(stay.dialogue) + PgProxy.Readies(stay.talk) == 1 + PgProxy.Asked(stay.talk)
  {
    PgStartup.AuthInLockstep(stay.dialogue);
    PgProxy.ReadyMatchesAsked(stay.talk);
  }

  // ---------------------------------------------------------------- legal connections

  /** One message of the primary during authentication, with the client's answer to it. */
  datatype Round = Round(message: Packet, answer: Option<Packet>)
  {
    /** Neither ReadyForQuery ('Z') nor ErrorResponse ('E'), and answered exactly if a challenge. */
    predicate Legal() {
      && PgProxy.Framed(message) && message.kind !in {0x5A, 0x45} && (message.kind == 0x52 ==> |message.payload| >= 8)
      && (answer.Some? <==> PgStartup.Challenge(message)) && (answer.Some? ==> PgProxy.Framed(answer.value))
    }
    function AnswerBytes(): seq<byte> { if answer.Some? then answer.value.Bytes() else [] }
  }

  function Answered(rounds: seq<Round>): seq<byte> {
    if rounds == [] then [] else rounds[0].AnswerBytes() + Answered(rounds[1..])
  }

  function Challenged(rounds: seq<Round>): seq<byte> {
    if rounds == [] then [] else rounds[0].message.Bytes() + Challenged(rounds[1..])
  }

  lemma {:induction false} LegalRound(r: Round, c: seq<byte>, p: seq<byte>)
    requires r.Legal()
    ensures PgStartup.Exchange(r.AnswerBytes() + c, r.message.Bytes() + p) ==
            PgStartup.Exchange(c, p).After(r.AnswerBytes(), r.message.Bytes())
  {
    PgProxy.FramedParses(r.message, p);
    if r.answer.Some? {
      PgProxy.FramedParses(r.answer.value, c);
    } else {
      assert [] + c == c;
    }
  }

  /** An authentication that ends in ReadyForQuery is passed through and ends there. */
  lemma {:induction false} LegalAuthentication(rounds: seq<Round>, ready: Packet, c: seq<byte>, p: seq<byte>)
    requires (forall r :: r in rounds ==> r.Legal()) && PgProxy.Framed(ready) && ready.kind == 0x5A
    ensures PgStartup.Exchange(Answered(rounds) + c, Challenged(rounds) + (ready.Bytes() + p)) ==
            PgStartup.AuthCourse(Answered(rounds), Challenged(rounds) + ready.Bytes(), true, c, p)
    decreases |rounds|
  {
    if rounds == [] {
      assert Answered(rounds) + c == c && Challenged(rounds) + (ready.Bytes() + p) == ready.Bytes() + p;
      assert Challenged(rounds) + ready.Bytes() == ready.Bytes();
      PgProxy.FramedParses(ready, p);
    } else {
      var r, more := rounds[0], rounds[1..];
      assert r in rounds;
      LegalAuthentication(more, ready, c, p);
      Regroup(r.AnswerBytes(), Answered(more), c);
      Regroup(r.message.Bytes(), Challenged(more), ready.Bytes() + p);
      Regroup(r.message.Bytes(), Challenged(more), ready.Bytes());
      LegalRound(r, Answered(more) + c, Challenged(more) + (ready.Bytes() + p));
    }
  }

  /** One that the primary refuses is passed through as well, and ends there. */
  lemma {:induction false} RefusedAuthentication(rounds: seq<Round>, error: Packet, c: seq<byte>, p: seq<byte>)
    requires (forall r :: r in rounds ==> r.Legal()) && PgProxy.Framed(error) && error.kind == 0x45
    ensures PgStartup.Exchange(Answered(rounds) + c, Challenged(rounds) + (error.Bytes() + p)) ==
            PgStartup.AuthCourse(Answered(rounds), Challenged(rounds) + error.Bytes(), false, c, p)
    decreases |rounds|
  {
    if rounds == [] {
      assert Answered(rounds) + c == c && Challenged(rounds) + (error.Bytes() + p) == error.Bytes() + p;
      assert Challenged(rounds) + error.Bytes() == error.Bytes();
      PgProxy.FramedParses(error, p);
    } else {
      var r, more := rounds[0], rounds[1..];
      assert r in rounds;
      RefusedAuthentication(more, error, c, p);
      Regroup(r.AnswerBytes(), Answered(more), c);
      Regroup(r.message.Bytes(), Challenged(more), error.Bytes() + p);
      Regroup(r.message.Bytes(), Challenged(more), error.Bytes());
      LegalRound(r, Answered(more) + c, Challenged(more) + (error.Bytes() + p));
    }
  }

  /** SSLRequest and GSSENCRequest. */
  predicate Probe(m: Packet) { |m.payload| == 8 && BE32(m.payload[4..]) in {80877103, 80877104} }

  /** A message of the startup phase that its length field describes. */
  predicate StartupFramed(m: Packet) {
    m.kind == 0 && 8 <= |m.payload| <= 0x1000_0000 && BE32(m.payload) == |m.payload|
  }

  lemma {:induction false} StartupParses(m: Packet, tail: seq<byte>)
    requires StartupFramed(m)
    ensures ParseStartup(m.payload + tail) == Message(m, tail)
  {
    var s := m.payload + tail;
    assert BE32(s) == BE32(m.payload);
    assert s[..|m.payload|] == m.payload && s[|m.payload|..] == tail;
  }

  function Probed(probes: seq<Packet>): seq<byte> {
    if probes == [] then [] else probes[0].payload + Probed(probes[1..])
  }

  function Refused(probes: seq<Packet>): seq<byte> {
    if probes == [] then [] else [0x4E] + Refused(probes[1..])
  }

  /** CancelRequest. */
  predicate Cancels(m: Packet) { |m.payload| == 16 && BE32(m.payload[4..]) == 80877102 }

  lemma {:induction false} LegalStartup(probes: seq<Packet>, m: Packet, c: seq<byte>)
    requires (forall q :: q in probes ==> StartupFramed(q) && Probe(q)) && StartupFramed(m) && !Probe(m)
    ensures PgStartup.Startup(Probed(probes) + (m.payload + c)) ==
      PgStartup.StartupCourse(Refused(probes), if Cancels(m) then PgStartup.Cancelled(m) else PgStartup.Started(m), c)
    decreases |probes|
  {
    if probes == [] {
      assert Probed(probes) + (m.payload + c) == m.payload + c;
      StartupParses(m, c);
    } else {
      var q, more := probes[0], probes[1..];
      assert q in probes;
      LegalStartup(more, m, c);
      Regroup(q.payload, Probed(more), m.payload + c);
      StartupParses(q, Probed(more) + (m.payload + c));
    }
  }

  /** A client and a primary that follow the protocol: probes, a startup message, the rounds of
      an authentication that succeeds, and a dialogue. */
  datatype Script = Script(probes: seq<Packet>, startup: Packet, rounds: seq<Round>, ready: Packet,
                           dialogue: seq<PgProxy.Exchange>)
  {
    predicate Legal() {
      && (forall q :: q in probes ==> StartupFramed(q) && Probe(q))
      && StartupFramed(startup) && !Probe(startup) && !Cancels(startup)
      && (forall r :: r in rounds ==> r.Legal()) && PgProxy.Framed(ready) && ready.kind == 0x5A
      && (forall x :: x in dialogue ==> x.Legal())
    }
    /** The client's bytes after the probes, and the primary's. */
    function Said(): seq<byte> { startup.payload + (Answered(rounds) + PgProxy.Commands(dialogue)) }
    function Replied(): seq<byte> { (Challenged(rounds) + ready.Bytes()) + PgProxy.Replies(dialogue) }
  }

  lemma {:induction false} LegalSession(allow: Filter, x: Script, c: seq<byte>, p: seq<byte>)
    requires x.Legal()
    ensures Session(allow, Answered(x.rounds) + (PgProxy.Commands(x.dialogue) + c),
                    Challenged(x.rounds) + (x.ready.Bytes() + (PgProxy.Replies(x.dialogue) + p))) ==
      Flow(Answered(x.rounds) + (PgProxy.Commands(x.dialogue) + PgProxy.Follow(c, p).Sent()),
           (Challenged(x.rounds) + x.ready.Bytes()) + (PgProxy.Replies(x.dialogue) + PgProxy.Follow(c, p).Got()),
           PgProxy.OffersOf(allow, PgProxy.Said(x.dialogue) + PgProxy.Follow(c, p).Messages()))
  {
    LegalAuthentication(x.rounds, x.ready, PgProxy.Commands(x.dialogue) + c, PgProxy.Replies(x.dialogue) + p);
    PgProxy.DialogueAdds(x.dialogue, c, p);
  }

  /** A legal connection: the primary is sent all that the client says after its probes, the
      client one refusal per probe and all that the primary says, to the byte. */
  lemma {:induction false} LegalConnection(allow: Filter, x: Script, c: seq<byte>, p: seq<byte>)
    requires x.Legal()
    ensures Connection(allow, Probed(x.probes) + (x.Said() + c), x.Replied() + p) ==
      Flow(x.Said() + PgProxy.Follow(c, p).Sent(), Refused(x.probes) + (x.Replied() + PgProxy.Follow(c, p).Got()),
           PgProxy.OffersOf(allow, PgProxy.Said(x.dialogue) + PgProxy.Follow(c, p).Messages()))
  {
    var m, a, b := x.startup.payload, Answered(x.rounds), PgProxy.Commands(x.dialogue);
    var d, e, r := Challenged(x.rounds), x.ready.Bytes(), PgProxy.Replies(x.dialogue);
    ThreeAndRest(m, a, b, c);
    ThreeAndRest(m, a, b, PgProxy.Follow(c, p).Sent());
    LegalStartup(x.probes, x.startup, a + (b + c));
    Regroup(d + e, r, p);
    Regroup(d, e, r + p);
    Regroup(d + e, r, PgProxy.Follow(c, p).Got());
    LegalSession(allow, x, c, p);
  }

  lemma {:induction false} ThreeAndRest(m: seq<byte>, a: seq<byte>, b: seq<byte>, c: seq<byte>)
    ensures (m + (a + b)) + c == m + (a + (b + c))
  {}

  /** The same of the running proxy, whatever the chunks in which the bytes arrive. */
  method ServeLegal(client: Conn, primary: Conn, toPrimary: Sink, toClient: Sink, policy: MirrorPolicy,
                    ghost x: Script, ghost c: seq<byte>, ghost p: seq<byte>)
    returns (offered: seq<Packet>)
    requires client != primary && toPrimary != toClient && policy.State() == Sticky({}, 0)
    requires client.Quiet() && primary.Quiet() && toPrimary.Open() && toClient.Open() && x.Legal()
    requires client.Stream() == Probed(x.probes) + (x.Said() + c) && primary.Stream() == x.Replied() + p
    modifies client, primary, toPrimary, toClient, policy
    ensures toPrimary.written == old(toPrimary.written) + (x.Said() + PgProxy.Follow(c, p).Sent())
    ensures toClient.written == old(toClient.written) + (Refused(x.probes) + (x.Replied() + PgProxy.Follow(c, p).Got()))
    ensures offered == PgProxy.OffersOf(policy.allow, PgProxy.Said(x.dialogue) + PgProxy.Follow(c, p).Messages())
    ensures c == [] ==>
      && toPrimary.written == old(toPrimary.written) + x.Said()
      && toClient.written == old(toClient.written) + (Refused(x.probes) + x.Replied())
      && offered == PgProxy.OffersOf(policy.allow, PgProxy.Said(x.dialogue))
  {
    LegalConnection(policy.allow, x, c, p);
    if c == [] { NothingLeft(c, p, x.Said(), x.Replied(), PgProxy.Said(x.dialogue)); }
    ghost var v;
    offered, v := HandleConnection(client, primary, toPrimary, toClient, policy);
  }

  lemma {:induction false} NothingLeft(c: seq<byte>, p: seq<byte>, up: seq<byte>, down: seq<byte>, ms: seq<Packet>)
    requires |c| == 0
    ensures ms + PgProxy.Follow(c, p).Messages() == ms
    ensures up + PgProxy.Follow(c, p).Sent() == up && down + PgProxy.Follow(c, p).Got() == down
  {
    var course := PgProxy.Follow(c, p);
    assert course.passes == [] && course.Messages() == [] && course.partial == [];
    assert course.Sent() == [] && course.Got() == [];
  }
}
