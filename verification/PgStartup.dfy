/** Before the query loop: encryption probes are refused, the startup message and the
    authentication exchange are passed through. Listener-side TLS is not configured here. */
module PgStartup {
  import opened Network
  import opened PgMessages

  const REFUSAL: byte := 78        // 'N'
  const AUTH_REQUEST: byte := 82   // 'R'
  const ERROR: byte := 69          // 'E'

  predicate IsProbe(p: Packet) {
    p.kind == 0 && |p.payload| == 8 && (BE32(p.payload[4..]) == SSL_REQUEST || BE32(p.payload[4..]) == GSSENC_REQUEST)
  }

  predicate IsCancel(p: Packet) { p.kind == 0 && |p.payload| == 16 && BE32(p.payload[4..]) == CANCEL_REQUEST }

  /** Probes refused so far, latest last. */
  datatype Probes = Fresh(rest: seq<byte>) | Refused(before: Probes, probe: Packet, rest: seq<byte>)
  {
    predicate Genuine() {
      Refused? ==> before.Genuine() && ParseStartup(before.rest) == Message(probe, rest) && IsProbe(probe)
    }
    function Origin(): seq<byte> { if Fresh? then rest else before.Origin() }
    function Bytes(): seq<byte> { if Fresh? then [] else before.Bytes() + probe.payload }
    function Answers(): seq<byte> { if Fresh? then [] else before.Answers() + [REFUSAL] }
  }

  datatype Outcome = Started(startup: Packet) | Cancelled(request: Packet) | Failed
  {
    function Sent(): seq<byte> {
      match this
      case Started(m) => m.payload
      case Cancelled(m) => m.payload
      case Failed => []
    }
  }

  /** What a transparent proxy makes of a client stream: the refusals it sends, and the message
      that follows the probes. */
  datatype StartupCourse = StartupCourse(refusals: seq<byte>, outcome: Outcome, rest: seq<byte>)
  {
    function After(earlier: seq<byte>): StartupCourse { this.(refusals := earlier + refusals) }
  }

  function Startup(s: seq<byte>): StartupCourse
    decreases |s|
  {
    var m := ParseStartup(s);
    if !m.Message? then StartupCourse([], Failed, s)
    else if IsProbe(m.packet) then Startup(m.rest).After([REFUSAL])
    else StartupCourse([], if IsCancel(m.packet) then Cancelled(m.packet) else Started(m.packet), m.rest)
  }

  lemma {:induction false} ProbesFollow(t: Probes)
    requires t.Genuine()
    ensures Startup(t.Origin()) == Startup(t.rest).After(t.Answers())
  {
    var rest := Startup(t.rest);
    if t.Fresh? {
      assert [] + rest.refusals == rest.refusals;
    } else {
      ProbesFollow(t.before);
      Regroup(t.before.Answers(), [REFUSAL], rest.refusals);
    }
  }

  lemma {:induction false} ProbesEnd(t: Probes)
    requires t.Genuine()
    ensures var s := Startup(t.rest);
      s.refusals == [] ==> Startup(t.Origin()) == StartupCourse(t.Answers(), s.outcome, s.rest)
  {
    ProbesFollow(t);
    assert t.Answers() + [] == t.Answers();
  }

  /** The part of a refusal or of the last message that a failed write let out. */
  predicate StartupTorn(s: seq<byte>, left: Leftover) {
    var m := ParseStartup(s);
    left == Leftover([], []) ||
    (m.Message? &&
     if IsProbe(m.packet) then left.sent == [] && left.got <= [REFUSAL]
     else left.got == [] && left.sent <= m.packet.payload)
  }

  /** Reads one message of the startup phase and refuses it or passes it on. */
  method StartupStep(client: Conn, toClient: Sink, toPrimary: Sink)
    returns (again: bool, message: Packet, r: Outcome, ghost left: Leftover)
    requires toClient != toPrimary
    modifies client, toClient, toPrimary
    ensures again ==>
      && ParseStartup(old(client.Stream())) == Message(message, client.Stream()) && IsProbe(message)
      && toClient.written == old(toClient.written) + [REFUSAL] && toPrimary.written == old(toPrimary.written)
    ensures again || !r.Failed? ==> toPrimary.refusals == old(toPrimary.refusals)
    ensures !again ==>
      && toClient.written == Onto(old(toClient.written), left.got)
      && toPrimary.written == Onto(old(toPrimary.written), left.sent)
      && StartupTorn(old(client.Stream()), left)
      && (!r.Failed? ==>
            Startup(old(client.Stream())) == StartupCourse([], r, client.Stream()) && left == Leftover(r.Sent(), []))
    ensures old(client.Quiet() && toClient.Open() && toPrimary.Open()) ==>
      && client.Quiet() && toClient.Open() && toPrimary.Open()
      && (!again && r.Failed? ==>
            Startup(old(client.Stream())) == StartupCourse([], r, old(client.Stream())) && left == Leftover([], []))
  {
    again, message, r, left := false, Packet(0, []), Failed, Leftover([], []);
    var startup := ReadStartupMessage(client);
    if startup.Err? { return; }
    message := startup.value;
    var n;
    if IsProbe(message) {
      n, again := toClient.Write([REFUSAL]);
      left := Leftover([], [REFUSAL][..n]);
    } else {
      var ok;
      n, ok := toPrimary.Write(message.payload);
      left := Leftover(message.payload[..n], []);
      if ok { r := if IsCancel(message) then Cancelled(message) else Started(message); }
    }
  }

  /** The client's startup phase: any number of probes, each answered with one refusal, then
      one message that goes to the primary as it is. */
  method ForwardStartup(client: Conn, toClient: Sink, toPrimary: Sink)
    returns (r: Outcome, ghost probes: Probes, ghost left: Leftover)
    requires toClient != toPrimary
    modifies client, toClient, toPrimary
    ensures probes.Genuine() && probes.Origin() == old(client.Stream()) && StartupTorn(probes.rest, left)
    ensures toClient.written == Onto(old(toClient.written) + probes.Answers(), left.got)
    ensures toPrimary.written == Onto(old(toPrimary.written), left.sent)
    ensures !r.Failed? ==> toPrimary.refusals == old(toPrimary.refusals)
    ensures !r.Failed? ==>
      Startup(probes.rest) == StartupCourse([], r, client.Stream()) && left == Leftover(r.Sent(), [])
    ensures old(client.Quiet() && toClient.Open() && toPrimary.Open()) ==>
      var course := Startup(old(client.Stream()));
      && client.Quiet() && toClient.Open() && toPrimary.Open()
      && r == course.outcome && (!r.Failed? ==> client.Stream() == course.rest)
      && toClient.written == old(toClient.written) + course.refusals
      && toPrimary.written == old(toPrimary.written) + r.Sent()
  {
    ghost var base, out := toClient.written, toPrimary.written;
    ghost var quiet := client.Quiet() && toClient.Open() && toPrimary.Open();
    probes := Fresh(client.Stream());
    assert base + [] == base;
    while true
      invariant probes.Genuine() && probes.Origin() == old(client.Stream()) && probes.rest == client.Stream()
      invariant toClient.written == base + probes.Answers() && toPrimary.written == out
      invariant toPrimary.refusals == old(toPrimary.refusals)
      invariant quiet ==> client.Quiet() && toClient.Open() && toPrimary.Open()
      decreases |probes.rest|
    {
      var again, message;
      again, message, r, left := StartupStep(client, toClient, toPrimary);
      if !again {
        ProbesEnd(probes);
        return;
      }
      Regroup(base, probes.Answers(), [REFUSAL]);
      probes := Refused(probes, message, client.Stream());
    }
  }

  /** The primary sees the client's bytes minus the probes, and nothing is lost between. */
  lemma {:induction false} ProbesSplit(t: Probes)
    requires t.Genuine()
    ensures t.Origin() == t.Bytes() + t.rest && |t.Answers()| * 8 == |t.Bytes()|
  {
    if t.Refused? {
      ProbesSplit(t.before);
      StartupSplits(t.before.rest);
      Regroup(t.before.Bytes(), t.probe.payload, t.rest);
    }
  }

  lemma {:induction false} StartupSplits(s: seq<byte>)
    requires ParseStartup(s).Message?
    ensures var m := ParseStartup(s); s == m.packet.payload + m.rest && |m.rest| < |s|
  {}

  // ---------------------------------------------------------------- authentication

  /** Authentication requests that the client must answer: all but Ok (0) and SASLFinal (12). */
  predicate NeedsAnswer(m: Packet) {
    m.kind == AUTH_REQUEST && |m.payload| >= 8 && BE32(m.payload[4..8]) != 0 && BE32(m.payload[4..8]) != 12
  }

  /** Messages that end the phase: success, refusal, or an unreadable request. */
  predicate EndsAuth(m: Packet) {
    m.kind == READY || m.kind == ERROR || (m.kind == AUTH_REQUEST && |m.payload| < 8)
  }

  /** Messages of the primary passed to the client, with the client's answers where one is due. */
  datatype Dialogue =
    | Opening(client: seq<byte>, primary: seq<byte>)
    | Then(before: Dialogue, message: Packet, answer: Option<Packet>, client: seq<byte>, primary: seq<byte>)
  {
    predicate Genuine() {
      Then? ==>
        before.Genuine() && (before.Then? ==> !EndsAuth(before.message)) &&
        ParseMessage(before.primary) == Message(message, primary) &&
        (answer.Some? <==> NeedsAnswer(message)) &&
        if answer.Some? then ParseMessage(before.client) == Message(answer.value, client) else client == before.client
    }
    function Origin(): Dialogue { if Opening? then this else before.Origin() }
    function Got(): seq<byte> { if Opening? then [] else before.Got() + message.Bytes() }
    function Sent(): seq<byte> {
      if Opening? then [] else before.Sent() + if answer.Some? then answer.value.Bytes() else []
    }
  }

  class Authentication {
    const client: Conn
    const primary: Conn
    const toPrimary: Sink
    const toClient: Sink

    constructor (client: Conn, primary: Conn, toPrimary: Sink, toClient: Sink)
      ensures this.client == client && this.primary == primary
      ensures this.toPrimary == toPrimary && this.toClient == toClient
    {
      this.client, this.primary, this.toPrimary, this.toClient := client, primary, toPrimary, toClient;
    }

    ghost predicate Apart() { client != primary && toPrimary != toClient }

    ghost predicate InStep(d: Dialogue, outP: seq<byte>, outC: seq<byte>)
      reads client, primary, toPrimary, toClient
    {
      d.Genuine() && d.client == client.Stream() && d.primary == primary.Stream() &&
      toPrimary.written == outP + d.Sent() && toClient.written == outC + d.Got()
    }

    ghost predicate Faultless()
      reads client, primary, toPrimary, toClient
    {
      client.Quiet() && primary.Quiet() && toPrimary.Open() && toClient.Open()
    }

    /** The client's answer to a message, if it needs one. */
    method PassAnswer(message: Packet) returns (ok: bool, ghost answer: Option<Packet>, ghost sent: seq<byte>)
      modifies client, toPrimary
      ensures Torn(old(client.Stream()), sent) && toPrimary.written == Onto(old(toPrimary.written), sent)
      ensures !NeedsAnswer(message) ==> ok && answer.None? && sent == [] && client.Stream() == old(client.Stream())
      ensures ok ==> toPrimary.refusals == old(toPrimary.refusals)
      ensures NeedsAnswer(message) && ok ==>
        && answer.Some? && ParseMessage(old(client.Stream())) == Message(answer.value, client.Stream())
        && sent == answer.value.Bytes()
      ensures old(client.Quiet() && toPrimary.Open()) ==>
        client.Quiet() && toPrimary.Open() && (!ok ==> sent == [] && !ParseMessage(old(client.Stream())).Message?)
    {
      ok, answer, sent := true, None, [];
      if NeedsAnswer(message) {
        ok := false;
        var pw := ReadMessage(client);
        if pw.Err? { return; }
        var n;
        n, ok := toPrimary.Write(pw.value.Bytes());
        answer, sent := Some(pw.value), pw.value.Bytes()[..n];
      }
    }

    /** One message of the primary, passed to the client. */
    method PassChallenge() returns (ok: bool, message: Packet, ghost got: seq<byte>)
      requires Apart()
      modifies primary, toClient
      ensures Torn(old(primary.Stream()), got) && toClient.written == Onto(old(toClient.written), got)
      ensures ok ==> ParseMessage(old(primary.Stream())) == Message(message, primary.Stream()) && got == message.Bytes()
      ensures old(primary.Quiet() && toClient.Open()) ==>
        primary.Quiet() && toClient.Open() && (!ok ==> got == [] && !ParseMessage(old(primary.Stream())).Message?)
    {
      ok, message, got := false, Packet(0, []), [];
      var r := ReadMessage(primary);
      if r.Err? { return; }
      message := r.value;
      var n;
      n, ok := toClient.Write(message.Bytes());
      got := message.Bytes()[..n];
    }

    /** One message of the primary, and the client's answer if it needs one. A round that fails
        has let out at most the message and a part of the answer to it; without faults it fails
        only when one of the two streams holds no message where one is due. */
    method Round(ghost d: Dialogue, ghost outP: seq<byte>, ghost outC: seq<byte>)
      returns (ok: bool, message: Packet, ghost next: Dialogue, ghost left: Leftover)
      requires Apart() && InStep(d, outP, outC) && (d.Then? ==> !EndsAuth(d.message))
      modifies client, primary, toPrimary, toClient
      ensures ok ==> InStep(next, outP, outC) && next.Then? && next.before == d && next.message == message
      ensures ok ==> |next.primary| < |d.primary| && left == Leftover([], [])
      ensures ok ==> toPrimary.refusals == old(toPrimary.refusals)
      ensures !ok ==> next == d && left.Fits(d)
      ensures !ok ==> toPrimary.written == Onto(outP + d.Sent(), left.sent)
      ensures !ok ==> toClient.written == Onto(outC + d.Got(), left.got)
      ensures old(Faultless()) ==> Faultless() && (!ok ==> Stuck(d, left))
    {
      next := d;
      ghost var got;
      ok, message, got := PassChallenge();
      left := Leftover([], got);
      if !ok { return; }
      OntoPlain(outC, d.Got(), message.Bytes());
      ghost var answer, sent;
      ok, answer, sent := PassAnswer(message);
      left := left.(sent := sent);
      OntoPlain(outP, d.Sent(), sent);
      if ok {
        left := Leftover([], []);
        next := Then(d, message, answer, client.Stream(), primary.Stream());
      }
    }

    /** The authentication phase: passes the exchange through until the primary is ready for
        queries; any other ending is a failure. Whatever ends it, each side has received the
        other's messages in turn and at most the beginning of one more; without faults the
        whole exchange is the one that the two streams determine. */
    method Forward() returns (ok: bool, ghost d: Dialogue, ghost left: Leftover)
      requires Apart()
      modifies client, primary, toPrimary, toClient
      ensures d.Genuine() && d.Origin() == Opening(old(client.Stream()), old(primary.Stream()))
      ensures ok <==> d.Then? && d.message.kind == READY
      ensures ok ==> toPrimary.refusals == old(toPrimary.refusals)
      ensures d.Then? && EndsAuth(d.message) ==>
        left == Leftover([], []) && InStep(d, old(toPrimary.written), old(toClient.written))
      ensures toPrimary.written == Onto(old(toPrimary.written) + d.Sent(), left.sent)
      ensures toClient.written == Onto(old(toClient.written) + d.Got(), left.got) && left.Fits(d)
      ensures old(Faultless()) ==> Faultless() && ((d.Then? && EndsAuth(d.message)) || Stuck(d, left))
      ensures old(Faultless()) ==>
        var course := Exchange(old(client.Stream()), old(primary.Stream()));
        && ok == course.ready
        && toPrimary.written == old(toPrimary.written) + course.sent
        && toClient.written == old(toClient.written) + course.got
        && (ok ==> client.Stream() == course.client && primary.Stream() == course.primary)
    {
      ghost var faultless, outP, outC := Faultless(), toPrimary.written, toClient.written;
      d := Opening(client.Stream(), primary.Stream());
      ghost var opening := d;
      assert outP + [] == outP && outC + [] == outC;
      while true
        invariant InStep(d, outP, outC) && d.Origin() == opening && (d.Then? ==> !EndsAuth(d.message))
        invariant toPrimary.refusals == old(toPrimary.refusals) && (faultless ==> Faultless())
        decreases |d.primary|
      {
        var message;
        ok, message, d, left := Round(d, outP, outC);
        if !ok || EndsAuth(message) {
          ok := ok && message.kind == READY;
          if faultless {
            DialogueEnds(d, left);
            OntoPlain(outP, d.Sent(), left.sent);
            OntoPlain(outC, d.Got(), left.got);
          }
          return;
        }
      }
    }
  }

  /** What still went out after the last complete round. */
  datatype Leftover = Leftover(sent: seq<byte>, got: seq<byte>)
  {
    /** The beginning of the next message and, if that is a challenge passed on whole, of the
        answer to it. */
    predicate Fits(d: Dialogue) {
      Torn(d.primary, got) && Torn(d.client, sent) &&
      (sent != [] ==>
        var m := ParseMessage(d.primary);
        m.Message? && NeedsAnswer(m.packet) && got == m.packet.Bytes())
    }
  }

  /** The exchange cannot go on: the primary's stream holds no message, or it holds a challenge
      and the client's stream holds no answer. */
  predicate Stuck(d: Dialogue, left: Leftover) {
    var m := ParseMessage(d.primary);
    left.sent == [] &&
    if m.Message? then NeedsAnswer(m.packet) && !ParseMessage(d.client).Message? && left.got == m.packet.Bytes()
    else left.got == []
  }

  // ---------------------------------------------------------------- the pure exchange

  datatype AuthCourse = AuthCourse(sent: seq<byte>, got: seq<byte>, ready: bool, client: seq<byte>, primary: seq<byte>)
  {
    function After(earlierSent: seq<byte>, earlierGot: seq<byte>): AuthCourse {
      this.(sent := earlierSent + sent, got := earlierGot + got)
    }
  }

  /** What a transparent proxy does with a client stream `c` and a primary stream `p`. */
  function Exchange(c: seq<byte>, p: seq<byte>): AuthCourse
    decreases |p|
  {
    var m := ParseMessage(p);
    if !m.Message? then AuthCourse([], [], false, c, p)
    else if NeedsAnswer(m.packet) then
      var a := ParseMessage(c);
      if !a.Message? then AuthCourse([], m.packet.Bytes(), false, c, m.rest)
      else Exchange(a.rest, m.rest).After(a.packet.Bytes(), m.packet.Bytes())
    else if EndsAuth(m.packet) then AuthCourse([], m.packet.Bytes(), m.packet.kind == READY, c, m.rest)
    else Exchange(c, m.rest).After([], m.packet.Bytes())
  }

  lemma {:induction false} AfterTwice(x: AuthCourse, a: seq<byte>, b: seq<byte>, c: seq<byte>, d: seq<byte>)
    ensures x.After(c, d).After(a, b) == x.After(a + c, b + d)
  {
    Regroup(a, c, x.sent);
    Regroup(b, d, x.got);
  }

  /** A dialogue that has not ended is an initial part of the exchange. */
  lemma {:induction false} DialogueFollows(d: Dialogue)
    requires d.Genuine() && (d.Then? ==> !EndsAuth(d.message))
    ensures Exchange(d.Origin().client, d.Origin().primary) == Exchange(d.client, d.primary).After(d.Sent(), d.Got())
  {
    var rest := Exchange(d.client, d.primary);
    if d.Opening? {
      assert [] + rest.sent == rest.sent && [] + rest.got == rest.got;
    } else {
      DialogueFollows(d.before);
      var answer := if d.answer.Some? then d.answer.value.Bytes() else [];
      AfterTwice(rest, d.before.Sent(), d.before.Got(), answer, d.message.Bytes());
    }
  }

  /** One that has ended, or is stuck, is the whole of it. */
  lemma {:induction false} DialogueEnds(d: Dialogue, left: Leftover)
    requires d.Genuine()
    requires if d.Then? && EndsAuth(d.message) then left == Leftover([], []) else Stuck(d, left)
    ensures var course := Exchange(d.Origin().client, d.Origin().primary);
      && course.sent == d.Sent() + left.sent && course.got == d.Got() + left.got
      && course.ready == (d.Then? && d.message.kind == READY)
      && (course.ready ==> course.client == d.client && course.primary == d.primary)
  {
    if d.Then? && EndsAuth(d.message) {
      DialogueFollows(d.before);
      assert d.Sent() + [] == d.Sent() && d.Got() + [] == d.Got();
    } else {
      DialogueFollows(d);
    }
  }

  /** An authentication request ('R') with a code other than Ok (0) and SASLFinal (12). */
  predicate Challenge(m: Packet) { m.kind == 0x52 && |m.payload| >= 8 && BE32(m.payload[4..8]) !in {0, 12} }

  function Challenges(d: Dialogue): nat {
    if d.Opening? then 0 else Challenges(d.before) + if Challenge(d.message) then 1 else 0
  }

  function ReadiesSeen(d: Dialogue): nat {
    if d.Opening? then 0 else ReadiesSeen(d.before) + if d.message.kind == 0x5A then 1 else 0
  }

  function Answers(d: Dialogue): nat {
    if d.Opening? then 0 else Answers(d.before) + if d.answer.Some? then 1 else 0
  }

  /** One client message per challenge, and the primary becomes ready once, at the end. */
  lemma {:induction false} AuthInLockstep(d: Dialogue)
    requires d.Genuine()
    ensures Answers(d) == Challenges(d)
    ensures ReadiesSeen(d) == if d.Then? && d.message.kind == READY then 1 else 0
  {
    if d.Then? { AuthInLockstep(d.before); }
  }
}
