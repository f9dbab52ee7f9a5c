/** The query loop of the PostgreSQL proxy: it forwards each message and each reply, and hands
    the shadow the frames that the mirroring policy lets by. */
module PgProxy {
  import opened Network
  import opened PgMessages
  import opened PgMirrorPolicy

  predicate EntersCopy(kind: byte) { kind == COPY_IN || kind == COPY_OUT || kind == COPY_BOTH }
  predicate EndsReply(kind: byte) { kind == READY || EntersCopy(kind) }
  predicate Awaits(kind: byte) { kind == QUERY || kind == SYNC }

  // ---------------------------------------------------------------- one reply

  datatype Stop = Ready | Copying | Cut

  datatype Reply = Reply(messages: seq<Packet>, stop: Stop, rest: seq<byte>)
  {
    function After(earlier: seq<Packet>): Reply { this.(messages := earlier + messages) }
  }

  function StopOf(kind: byte): Stop { if kind == READY then Ready else Copying }

  /** Backend messages up to ReadyForQuery, or to the start of a COPY. */
  function AwaitReady(s: seq<byte>): Reply
    decreases |s|
  {
    var m := ParseMessage(s);
    if !m.Message? then Reply([], Cut, s)
    else if EndsReply(m.packet.kind) then Reply([m.packet], StopOf(m.packet.kind), m.rest)
    else AwaitReady(m.rest).After([m.packet])
  }

  /** The messages forwarded so far of one reply, latest last. */
  datatype Chain = Begin(rest: seq<byte>) | Got(before: Chain, packet: Packet, rest: seq<byte>)
  {
    predicate Open() { Begin? || !EndsReply(packet.kind) }
    predicate Genuine() {
      Got? ==> before.Genuine() && before.Open() && ParseMessage(before.rest) == Message(packet, rest)
    }
    function Origin(): seq<byte> { if Begin? then rest else before.Origin() }
    function Bytes(): seq<byte> { if Begin? then [] else before.Bytes() + packet.Bytes() }
    function Packets(): seq<Packet> { if Begin? then [] else before.Packets() + [packet] }
  }

  lemma {:induction false} ChainScans(c: Chain)
    requires c.Genuine()
    ensures c.Open() ==> AwaitReady(c.Origin()) == AwaitReady(c.rest).After(c.Packets())
    ensures !c.Open() ==> AwaitReady(c.Origin()) == Reply(c.Packets(), StopOf(c.packet.kind), c.rest)
  {
    match c
    case Begin(rest) =>
      assert [] + AwaitReady(rest).messages == AwaitReady(rest).messages;
    case Got(before, packet, rest) =>
      ChainScans(before);
      Regroup(before.Packets(), [packet], AwaitReady(rest).messages);
  }

  /** A reply cut short by the end of the stream, or by a malformed message, is all there is. */
  lemma {:induction false} ChainEnds(c: Chain)
    requires c.Genuine() && (c.Open() ==> !ParseMessage(c.rest).Message?)
    ensures AwaitReady(c.Origin()) == Reply(c.Packets(), if c.Open() then Cut else StopOf(c.packet.kind), c.rest)
  {
    ChainScans(c);
    assert c.Packets() + [] == c.Packets();
  }

  /** Reads one backend message and passes it on. */
  method ForwardMessage(primary: Conn, toClient: Sink, ghost chain: Chain, ghost base: seq<byte>)
    returns (kind: byte, n: nat, ok: bool, ghost next: Chain, ghost torn: seq<byte>)
    requires chain.Genuine() && chain.Open() && chain.rest == primary.Stream()
    requires toClient.written == base + chain.Bytes()
    modifies primary, toClient
    ensures next.Genuine() && next.Origin() == chain.Origin()
    ensures toClient.written == Onto(base + next.Bytes(), torn) && |next.Bytes()| + |torn| == |chain.Bytes()| + n
    ensures ok ==> torn == [] && next.Got? && next.before == chain && next.packet.kind == kind
    ensures ok ==> next.rest == primary.Stream() && |next.rest| < |chain.rest|
    ensures !ok ==> next == chain && Torn(chain.rest, torn)
    ensures old(primary.Quiet() && toClient.Open()) ==>
      primary.Quiet() && toClient.Open() && torn == [] && (!ok ==> !ParseMessage(chain.rest).Message?)
  {
    kind, n, ok, next, torn := 0, 0, false, chain, [];
    var r := ReadMessage(primary);
    if r.Err? { return; }
    kind := r.value.kind;
    n, ok := toClient.Write(r.value.Bytes());
    if ok {
      Regroup(base, chain.Bytes(), r.value.Bytes());
      next := Got(chain, r.value, primary.Stream());
    } else {
      torn := r.value.Bytes()[..n];
    }
  }

  /** Passes on one reply. What the client got is exactly the messages read, and the part of
      one more that a failed write let out. */
  method ForwardUntilReady(primary: Conn, toClient: Sink)
    returns (total: nat, stop: Stop, ghost chain: Chain, ghost torn: seq<byte>)
    modifies primary, toClient
    ensures chain.Genuine() && chain.Origin() == old(primary.Stream())
    ensures toClient.written == Onto(old(toClient.written) + chain.Bytes(), torn) && total == |chain.Bytes()| + |torn|
    ensures if stop == Cut then chain.Open() && Torn(chain.rest, torn)
            else torn == [] && !chain.Open() && StopOf(chain.packet.kind) == stop && chain.rest == primary.Stream()
    ensures old(primary.Quiet() && toClient.Open()) ==>
      primary.Quiet() && toClient.Open() && torn == [] && (stop == Cut ==> !ParseMessage(chain.rest).Message?)
  {
    chain := Begin(primary.Stream());
    total, stop := 0, Cut;
    ghost var base := toClient.written;
    while true
      invariant chain.Genuine() && chain.Open() && chain.Origin() == old(primary.Stream())
      invariant chain.rest == primary.Stream()
      invariant toClient.written == base + chain.Bytes() && total == |chain.Bytes()|
      invariant old(primary.Quiet() && toClient.Open()) ==> primary.Quiet() && toClient.Open()
      decreases |chain.rest|
    {
      var kind, n, ok;
      kind, n, ok, chain, torn := ForwardMessage(primary, toClient, chain, base);
      total := total + n;
      if !ok { return; }
      if EndsReply(kind) {
        stop := StopOf(kind);
        return;
      }
    }
  }

  // ---------------------------------------------------------------- the query loop

  /** One pass of the loop: a client message and, for Query and Sync, its whole reply. */
  datatype Turn = Turn(message: Packet, reply: Chain)

  datatype Talk =
    | Opening(client: seq<byte>, primary: seq<byte>)
    | Then(before: Talk, turn: Turn, client: seq<byte>, primary: seq<byte>)
  {
    predicate Genuine() {
      Then? ==>
        before.Genuine() && ParseMessage(before.client) == Message(turn.message, client) &&
        turn.message.kind != TERMINATE &&
        turn.reply.Genuine() && turn.reply.Origin() == before.primary && turn.reply.rest == primary &&
        (if Awaits(turn.message.kind) then turn.reply.Got? && turn.reply.packet.kind == READY else turn.reply.Begin?)
    }
    function Origin(): Talk { if Opening? then this else before.Origin() }
    function Sent(): seq<byte> { if Opening? then [] else before.Sent() + turn.message.Bytes() }
    function Got(): seq<byte> { if Opening? then [] else before.Got() + turn.reply.Bytes() }
    function Policy(allow: Filter): Sticky {
      if Opening? then Sticky({}, 0) else Update(allow, before.Policy(allow), FrameOf(turn.message))
    }
    function Offers(allow: Filter): seq<Packet> {
      if Opening? then [] else before.Offers(allow) + Offer(allow, before.Policy(allow), turn.message)
    }
  }

  function Offer(allow: Filter, st: Sticky, m: Packet): seq<Packet> {
    if m.kind != TERMINATE && Verdict(allow, st, FrameOf(m)) == Mirrored then [m] else []
  }

  /** Why and where the loop ended. */
  datatype Ending =
    | ClientGone
    | Terminated(message: Packet)
    | Unanswered(message: Packet, reply: Chain)
    | CopyBegan(message: Packet, reply: Chain)
  {
    function Sent(): seq<byte> { if ClientGone? then [] else message.Bytes() }
    function Got(): seq<byte> { if Unanswered? || CopyBegan? then reply.Bytes() else [] }
    function Offers(allow: Filter, st: Sticky): seq<Packet> { if ClientGone? then [] else Offer(allow, st, message) }
  }

  predicate Ends(talk: Talk, e: Ending) {
    var m := ParseMessage(talk.client);
    match e
    case ClientGone => !m.Message?
    case Terminated(message) => m.Message? && m.packet == message && message.kind == TERMINATE
    case Unanswered(message, reply) =>
      m.Message? && m.packet == message && Awaits(message.kind) &&
      AwaitReady(talk.primary) == Reply(reply.Packets(), Cut, reply.rest)
    case CopyBegan(message, reply) =>
      m.Message? && m.packet == message && Awaits(message.kind) &&
      AwaitReady(talk.primary) == Reply(reply.Packets(), Copying, reply.rest)
  }

  /** What still went out after the last complete turn. `passed`: the primary took a message,
      no write to it being refused. */
  datatype Tail = Tail(passed: bool, sent: seq<byte>, reply: Chain, torn: seq<byte>, offered: seq<Packet>)
  {
    function Got(): seq<byte> { Onto(reply.Bytes(), torn) }
    /** At most the beginning of the next message. If the primary took it, it was sent whole, the
        offer is exactly the policy's and some of a reply came only if one was awaited; otherwise
        there is no offer and no reply. */
    predicate Fits(talk: Talk, allow: Filter) {
      && Torn(talk.client, sent) && reply.Genuine() && reply.Origin() == talk.primary
      && Torn(reply.rest, torn) && (torn != [] ==> reply.Open())
      && if passed then
           var m := ParseMessage(talk.client);
           && m.Message? && sent == m.packet.Bytes() && offered == Offer(allow, talk.Policy(allow), m.packet)
           && (reply.Got? || torn != [] ==> Awaits(m.packet.kind))
         else offered == [] && reply.Begin? && torn == []
    }
    predicate Is(e: Ending, allow: Filter, talk: Talk) {
      sent == e.Sent() && Got() == e.Got() && offered == e.Offers(allow, talk.Policy(allow))
    }
  }

  class QueryLoop {
    const client: Conn
    const primary: Conn
    const toPrimary: Sink
    const toClient: Sink
    const policy: MirrorPolicy
    /** Frames handed to the shadow worker, in order. */
    var offered: seq<Packet>

    constructor (client: Conn, primary: Conn, toPrimary: Sink, toClient: Sink, policy: MirrorPolicy)
      ensures this.client == client && this.primary == primary
      ensures this.toPrimary == toPrimary && this.toClient == toClient
      ensures this.policy == policy && offered == []
    {
      this.client, this.primary, this.toPrimary, this.toClient := client, primary, toPrimary, toClient;
      this.policy, offered := policy, [];
    }

    ghost predicate Apart() { client != primary && toPrimary != toClient }

    ghost predicate Faultless()
      reads client, primary, toPrimary, toClient
    {
      client.Quiet() && primary.Quiet() && toPrimary.Open() && toClient.Open()
    }

    ghost predicate InStep(talk: Talk, outP: seq<byte>, outC: seq<byte>)
      reads this, client, primary, toPrimary, toClient, policy
    {
      talk.Genuine() && talk.client == client.Stream() && talk.primary == primary.Stream() &&
      toPrimary.written == outP + talk.Sent() && toClient.written == outC + talk.Got() &&
      policy.State() == talk.Policy(policy.allow) && offered == talk.Offers(policy.allow)
    }

    /** Hands the frame to the shadow if the policy says so. */
    method Mirror(msg: Packet)
      modifies this, policy
      ensures msg.kind == TERMINATE ==> policy.State() == old(policy.State())
      ensures msg.kind != TERMINATE ==> policy.State() == Update(policy.allow, old(policy.State()), FrameOf(msg))
      ensures offered == old(offered) + Offer(policy.allow, old(policy.State()), msg)
    {
      if msg.kind != TERMINATE {
        ghost var before := policy.State();
        var allowed, reason := policy.ShouldMirror(msg);
        if allowed {
          offered := offered + [msg];
          MirroredKeeps(policy.allow, before, FrameOf(msg));
          policy.ForgetClosed(msg);
        }
      }
    }

    /** Reads one client message and writes it to the primary. */
    method PassMessage() returns (msg: Packet, ok: bool, ghost torn: seq<byte>)
      requires Apart()
      modifies client, toPrimary
      ensures ok ==> ParseMessage(old(client.Stream())) == Message(msg, client.Stream()) && torn == msg.Bytes()
      ensures ok <==> torn != [] && toPrimary.refusals == old(toPrimary.refusals)
      ensures Torn(old(client.Stream()), torn)
      ensures toPrimary.written == Onto(old(toPrimary.written), torn)
      ensures old(Faultless()) ==> Faultless() && (!ok ==> torn == [] && !ParseMessage(old(client.Stream())).Message?)
    {
      msg, ok, torn := Packet(0, []), false, [];
      var r := ReadMessage(client);
      if r.Err? { return; }
      msg := r.value;
      var n;
      n, ok := toPrimary.Write(msg.Bytes());
      torn := msg.Bytes()[..n];
    }

    /** Takes the next client message to the primary and, if mirrored, to the shadow. */
    method Accept(ghost talk: Talk) returns (msg: Packet, ok: bool, ghost sent: seq<byte>)
      requires Apart() && talk.client == client.Stream()
      requires policy.State() == talk.Policy(policy.allow) && offered == talk.Offers(policy.allow)
      modifies this, policy, client, toPrimary
      ensures ok ==> ParseMessage(talk.client) == Message(msg, client.Stream()) && sent == msg.Bytes()
      ensures ok <==> sent != [] && toPrimary.refusals == old(toPrimary.refusals)
      ensures Torn(talk.client, sent) && toPrimary.written == Onto(old(toPrimary.written), sent)
      ensures offered == talk.Offers(policy.allow) +
        (if ok then Offer(policy.allow, talk.Policy(policy.allow), msg) else [])
      ensures ok && msg.kind != TERMINATE ==>
        policy.State() == Update(policy.allow, talk.Policy(policy.allow), FrameOf(msg))
      ensures old(Faultless()) ==> Faultless() && (!ok ==> sent == [] && !ParseMessage(talk.client).Message?)
    {
      msg, ok, sent := PassMessage();
      if ok {
        Mirror(msg);
      } else {
        assert offered + [] == offered;
      }
    }

    /** Passes on the reply to `msg`, if it has one; `tail` is what went out of a reply that
        did not reach ReadyForQuery. */
    method PassReply(msg: Packet)
      returns (stop: bool, ghost reply: Chain, ghost tail: seq<byte>,
        ghost torn: seq<byte>, ghost ending: Option<Ending>)
      requires Apart()
      modifies primary, toClient
      ensures reply.Genuine() && reply.Origin() == old(primary.Stream()) && Torn(reply.rest, torn)
      ensures (torn != [] ==> reply.Open()) && (reply.Got? || torn != [] ==> Awaits(msg.kind))
      ensures toClient.written == Onto(old(toClient.written), tail) && tail == Onto(reply.Bytes(), torn)
      ensures !stop ==> torn == [] && reply.rest == primary.Stream()
      ensures !stop ==> (if Awaits(msg.kind) then reply.Got? && reply.packet.kind == READY else reply.Begin?)
      ensures old(Faultless()) ==> Faultless() && torn == []
      ensures stop && old(Faultless()) ==>
        Awaits(msg.kind) && ending.Some? &&
        (ending.value == Unanswered(msg, reply) || ending.value == CopyBegan(msg, reply)) &&
        AwaitReady(old(primary.Stream())) ==
          Reply(reply.Packets(), if ending.value.Unanswered? then Cut else Copying, reply.rest)
    {
      stop, reply, tail, torn, ending := false, Begin(primary.Stream()), [], [], None;
      if Awaits(msg.kind) {
        var total, why;
        total, why, reply, torn := ForwardUntilReady(primary, toClient);
        stop, tail := why != Ready, Onto(reply.Bytes(), torn);
        OntoTwice(old(toClient.written), reply.Bytes(), torn);
        if why == Copying || !ParseMessage(reply.rest).Message? { ChainEnds(reply); }
        ending := Some(if why == Cut then Unanswered(msg, reply) else CopyBegan(msg, reply));
      }
    }

    /** One pass of the loop. */
    method Extend(ghost talk: Talk, ghost outP: seq<byte>, ghost outC: seq<byte>)
      returns (stop: bool, ghost next: Talk, ghost last: Tail, ghost ending: Option<Ending>)
      requires Apart() && InStep(talk, outP, outC)
      modifies this, policy, client, primary, toPrimary, toClient
      ensures next.Genuine() && next.Origin() == talk.Origin()
      ensures !stop ==> InStep(next, outP, outC) && |next.client| < |talk.client|
      ensures !stop ==> toPrimary.refusals == old(toPrimary.refusals)
      ensures stop ==> next == talk && last.Fits(talk, policy.allow)
      ensures stop ==> (last.passed <==> last.sent != [] && toPrimary.refusals == old(toPrimary.refusals))
      ensures stop ==> offered == talk.Offers(policy.allow) + last.offered
      ensures stop ==> toPrimary.written == Onto(outP + talk.Sent(), last.sent)
      ensures stop ==> toClient.written == Onto(outC + talk.Got(), last.Got())
      ensures old(Faultless()) ==> Faultless()
      ensures stop && old(Faultless()) ==>
        ending.Some? && Ends(talk, ending.value) && last.Is(ending.value, policy.allow, talk)
    {
      stop, next, last, ending := true, talk, Tail(false, [], Begin(talk.primary), [], []), Some(ClientGone);
      var msg, ok;
      ghost var sent;
      msg, ok, sent := Accept(talk);
      last := last.(passed := ok, sent := sent);
      if !ok { return; }
      last := last.(offered := Offer(policy.allow, talk.Policy(policy.allow), msg));
      if msg.kind == TERMINATE {
        ending := Some(Terminated(msg));
        return;
      }
      ghost var reply, tail, torn;
      stop, reply, tail, torn, ending := PassReply(msg);
      last := last.(reply := reply, torn := torn);
      if !stop {
        OntoPlain(outP, talk.Sent(), msg.Bytes());
        OntoPlain(outC, talk.Got(), reply.Bytes());
        next := Then(talk, Turn(msg, reply), client.Stream(), primary.Stream());
      }
    }

    /** The query loop. Whatever ends it, the primary was sent the client's messages and the
        client the primary's, message by message and reply by reply; the frames offered to the
        shadow are exactly those the policy mirrors of the messages that the primary took; and
        without faults the loop ends only when the client is gone, terminates, starts a COPY, or
        the primary stops answering. */
    method Run() returns (ghost talk: Talk, ghost last: Tail, ghost ending: Option<Ending>)
      requires Apart() && offered == [] && policy.State() == Sticky({}, 0)
      modifies this, policy, client, primary, toPrimary, toClient
      ensures talk.Genuine() && talk.Origin() == Opening(old(client.Stream()), old(primary.Stream()))
      ensures last.Fits(talk, policy.allow)
      ensures last.passed <==> last.sent != [] && toPrimary.refusals == old(toPrimary.refusals)
      ensures toPrimary.written == Onto(old(toPrimary.written) + talk.Sent(), last.sent)
      ensures toClient.written == Onto(old(toClient.written) + talk.Got(), last.Got())
      ensures offered == talk.Offers(policy.allow) + last.offered
      ensures old(Faultless()) ==> ending.Some? && Ends(talk, ending.value) && last.Is(ending.value, policy.allow, talk)
      ensures old(Faultless()) ==>
        var course := Follow(old(client.Stream()), old(primary.Stream()));
        && toPrimary.written == old(toPrimary.written) + course.Sent()
        && toClient.written == old(toClient.written) + course.Got()
        && offered == OffersOf(policy.allow, course.Messages())
    {
      ghost var faultless, outP, outC := Faultless(), toPrimary.written, toClient.written;
      talk := Opening(client.Stream(), primary.Stream());
      ghost var opening := talk;
      assert outP + [] == outP && outC + [] == outC;
      while true
        invariant InStep(talk, outP, outC) && talk.Origin() == opening
        invariant toPrimary.refusals == old(toPrimary.refusals) && (faultless ==> Faultless())
        decreases |talk.client|
      {
        var stop;
        stop, talk, last, ending := Extend(talk, outP, outC);
        if stop {
          if faultless {
            RunFollows(talk, ending.value);
            RunSends(talk, ending.value, policy.allow);
            OntoPlain(outP, talk.Sent(), last.sent);
            OntoPlain(outC, talk.Got(), last.Got());
          }
          return;
        }
      }
    }
  }

  lemma {:induction false} MirroredKeeps(allow: Filter, st: Sticky, f: Frame)
    requires Verdict(allow, st, f) == Mirrored
    ensures Verdict(allow, Update(allow, st, f), f) == Mirrored
  {}

  // ---------------------------------------------------------------- what every pass keeps

  /** ReadyForQuery messages passed to the client, and messages to the primary that ask for one. */
  function ReadiesIn(c: Chain): nat {
    if c.Begin? then 0 else ReadiesIn(c.before) + if c.packet.kind == 0x5A then 1 else 0
  }
  function Readies(t: Talk): nat { if t.Opening? then 0 else Readies(t.before) + ReadiesIn(t.turn.reply) }
  function Asked(t: Talk): nat {
    if t.Opening? then 0 else Asked(t.before) + if t.turn.message.kind in {0x51, 0x53} then 1 else 0
  }

  lemma {:induction false} ChainReadies(c: Chain)
    requires c.Genuine()
    ensures ReadiesIn(c) == if c.Got? && c.packet.kind == READY then 1 else 0
  {
    if c.Got? { ChainReadies(c.before); }
  }

  /** At the top of the loop every Query and Sync has had its ReadyForQuery. */
  lemma {:induction false} ReadyMatchesAsked(t: Talk)
    requires t.Genuine()
    ensures Readies(t) == Asked(t)
  {
    if t.Then? {
      ReadyMatchesAsked(t.before);
      ChainReadies(t.turn.reply);
    }
  }

  /** Messages with type byte zero, whose type byte is lost on the way. */
  function ZerosIn(c: Chain): nat { if c.Begin? then 0 else ZerosIn(c.before) + if c.packet.kind == 0 then 1 else 0 }
  function SentZeros(t: Talk): nat {
    if t.Opening? then 0 else SentZeros(t.before) + if t.turn.message.kind == 0 then 1 else 0
  }
  function GotZeros(t: Talk): nat { if t.Opening? then 0 else GotZeros(t.before) + ZerosIn(t.turn.reply) }

  lemma {:induction false} ChainConsumes(c: Chain)
    requires c.Genuine()
    ensures |c.Origin()| == |c.Bytes()| + |c.rest| + ZerosIn(c)
    ensures ZerosIn(c) == 0 ==> c.Origin() == c.Bytes() + c.rest
  {
    if c.Got? {
      ChainConsumes(c.before);
      ReserializesExactly(c.before.rest);
      Regroup(c.before.Bytes(), c.packet.Bytes(), c.rest);
    }
  }

  /** Transparency, exactly: the bytes sent on are the bytes read, in both directions, if and
      only if no message had type byte zero; each such message costs one byte. */
  lemma {:induction false} BytesKeptExactly(t: Talk)
    requires t.Genuine()
    ensures t.Origin().client == t.Sent() + t.client <==> SentZeros(t) == 0
    ensures t.Origin().primary == t.Got() + t.primary <==> GotZeros(t) == 0
    ensures |t.Origin().client| == |t.Sent()| + |t.client| + SentZeros(t)
    ensures |t.Origin().primary| == |t.Got()| + |t.primary| + GotZeros(t)
  {
    if t.Then? {
      var b, turn := t.before, t.turn;
      BytesKeptExactly(b);
      ReserializesExactly(b.client);
      ChainConsumes(turn.reply);
      Regroup(b.Sent(), turn.message.Bytes(), t.client);
      Regroup(b.Got(), turn.reply.Bytes(), t.primary);
    }
  }

  // ---------------------------------------------------------------- legal dialogues

  datatype Pass = Pass(message: Packet, reply: seq<Packet>)

  function Wire(ms: seq<Packet>): seq<byte> { Concat(seq(|ms|, i requires 0 <= i < |ms| => ms[i].Bytes())) }

  function MessagesOf(ps: seq<Pass>): seq<Packet> { seq(|ps|, i requires 0 <= i < |ps| => ps[i].message) }

  function RepliesOf(ps: seq<Pass>): seq<byte> { Concat(seq(|ps|, i requires 0 <= i < |ps| => Wire(ps[i].reply))) }

  function FramesOf(ms: seq<Packet>): seq<Frame> { seq(|ms|, i requires 0 <= i < |ms| => FrameOf(ms[i])) }

  /** Which messages of a session are offered to the shadow. */
  function Offered(allow: Filter, ms: seq<Packet>): seq<bool> {
    seq(|ms|, i requires 0 <= i < |ms| => ms[i].kind != TERMINATE && Ships(allow, FramesOf(ms), i))
  }

  function OffersOf(allow: Filter, ms: seq<Packet>): seq<Packet> { Pick(ms, Offered(allow, ms), |ms|) }

  datatype Course = Course(passes: seq<Pass>, last: Option<Packet>, partial: seq<Packet>)
  {
    function After(earlier: seq<Pass>): Course { this.(passes := earlier + passes) }
    function Messages(): seq<Packet> { MessagesOf(passes) + if last.Some? then [last.value] else [] }
    /** All that goes to the primary and to the client. */
    function Sent(): seq<byte> { Wire(Messages()) }
    function Got(): seq<byte> { RepliesOf(passes) + Wire(partial) }
  }

  /** What a transparent proxy does with a client stream `c` and a primary stream `p`: the
      complete passes, then the message, if any, that ended the loop. */
  function Follow(c: seq<byte>, p: seq<byte>): Course
    decreases |c|
  {
    var m := ParseMessage(c);
    if !m.Message? then Course([], None, [])
    else if m.packet.kind == TERMINATE then Course([], Some(m.packet), [])
    else if !Awaits(m.packet.kind) then Follow(m.rest, p).After([Pass(m.packet, [])])
    else
      var r := AwaitReady(p);
      if r.stop == Ready then Follow(m.rest, r.rest).After([Pass(m.packet, r.messages)])
      else Course([], Some(m.packet), r.messages)
  }

  function Completed(t: Talk): seq<Pass> {
    if t.Opening? then [] else Completed(t.before) + [Pass(t.turn.message, t.turn.reply.Packets())]
  }

  /** The course of a loop that ended with `e` after the passes `ps`. */
  function Ended(ps: seq<Pass>, e: Ending): Course {
    Course(ps, if e.ClientGone? then None else Some(e.message),
           if e.Unanswered? || e.CopyBegan? then e.reply.Packets() else [])
  }

  lemma {:induction false} TalkFollows(t: Talk)
    requires t.Genuine()
    ensures Follow(t.Origin().client, t.Origin().primary) == Follow(t.client, t.primary).After(Completed(t))
  {
    var rest := Follow(t.client, t.primary);
    if t.Opening? {
      assert [] + rest.passes == rest.passes;
    } else {
      TalkFollows(t.before);
      ChainScans(t.turn.reply);
      Regroup(Completed(t.before), [Pass(t.turn.message, t.turn.reply.Packets())], rest.passes);
    }
  }

  lemma {:induction false} ChainWire(c: Chain)
    ensures c.Bytes() == Wire(c.Packets())
  {
    if c.Got? {
      ChainWire(c.before);
      WireSnoc(c.before.Packets(), c.packet);
    }
  }

  function Messages(t: Talk): seq<Packet> { if t.Opening? then [] else Messages(t.before) + [t.turn.message] }

  /** What a talk has sent is what its passes say. */
  lemma {:induction false} TalkBytes(t: Talk)
    ensures MessagesOf(Completed(t)) == Messages(t)
    ensures t.Sent() == Wire(Messages(t)) && t.Got() == RepliesOf(Completed(t))
  {
    if t.Then? {
      TalkBytes(t.before);
      ChainWire(t.turn.reply);
      WireSnoc(Messages(t.before), t.turn.message);
      CourseSnoc(Completed(t.before), Pass(t.turn.message, t.turn.reply.Packets()));
    }
  }

  lemma {:induction false} PolicySame(allow: Filter, a: seq<Packet>, b: seq<Packet>, n: nat)
    requires n <= |a| && n <= |b| && forall i :: 0 <= i < n ==> a[i] == b[i]
    ensures PgMirrorPolicy.After(allow, FramesOf(a), n) == PgMirrorPolicy.After(allow, FramesOf(b), n)
  {
    assert forall i :: 0 <= i < n ==> FramesOf(a)[i] == FramesOf(b)[i];
    AfterSame(allow, FramesOf(a), FramesOf(b), n);
  }

  lemma {:induction false} OffersSame(allow: Filter, a: seq<Packet>, b: seq<Packet>, n: nat)
    requires n <= |a| && n <= |b| && forall i :: 0 <= i < n ==> a[i] == b[i]
    ensures Pick(a, Offered(allow, a), n) == Pick(b, Offered(allow, b), n)
  {
    forall i | 0 <= i < n ensures Ships(allow, FramesOf(a), i) == Ships(allow, FramesOf(b), i) {
      PolicySame(allow, a, b, i);
      assert FramesOf(a)[i] == FramesOf(b)[i];
    }
    PickSame(a, Offered(allow, a), b, Offered(allow, b), n);
  }

  /** One more message: policy and offers go on from where they were. */
  lemma {:induction false} OffersSnoc(allow: Filter, ms: seq<Packet>, m: Packet)
    ensures var n, all := |ms|, ms + [m];
      var before := PgMirrorPolicy.After(allow, FramesOf(ms), n);
      && OffersOf(allow, all) == OffersOf(allow, ms) + Offer(allow, before, m)
      && PgMirrorPolicy.After(allow, FramesOf(all), n + 1) == Update(allow, before, FrameOf(m))
  {
    OffersSame(allow, ms + [m], ms, |ms|);
    PolicySame(allow, ms + [m], ms, |ms|);
    assert FramesOf(ms + [m])[|ms|] == FrameOf(m);
  }

  /** The policy of the loop is the policy of the trace of frames it has passed, and what it has
      offered follows from that trace alone. */
  lemma {:induction false} TalkOffers(t: Talk, allow: Filter)
    ensures t.Policy(allow) == PgMirrorPolicy.After(allow, FramesOf(Messages(t)), |Messages(t)|)
    ensures t.Offers(allow) == OffersOf(allow, Messages(t))
  {
    if t.Then? {
      TalkOffers(t.before, allow);
      OffersSnoc(allow, Messages(t.before), t.turn.message);
    }
  }

  /** The frames offered are those the policy ships, so that what is proved of every trace holds
      of every session. */
  lemma {:induction false} OffersAreShipped(allow: Filter, ms: seq<Packet>)
    requires forall i :: 0 <= i < |ms| ==> ms[i].kind != TERMINATE
    ensures FramesOf(OffersOf(allow, ms)) == Shipped(allow, FramesOf(ms), |ms|)
  {
    assert Offered(allow, ms) == ShipsAll(allow, FramesOf(ms));
    PickMapped(FrameOf, ms, FramesOf(ms), Offered(allow, ms), |ms|);
  }

  /** The loop without faults takes the one course there is, and sends what that course says. */
  lemma {:induction false} RunFollows(t: Talk, e: Ending)
    requires t.Genuine() && Ends(t, e)
    ensures Follow(t.Origin().client, t.Origin().primary) == Ended(Completed(t), e)
  {
    TalkFollows(t);
    assert Completed(t) + [] == Completed(t);
  }

  lemma {:induction false} RunSends(t: Talk, e: Ending, allow: Filter)
    ensures var course := Ended(Completed(t), e);
      && course.Sent() == t.Sent() + e.Sent() && course.Got() == t.Got() + e.Got()
      && OffersOf(allow, course.Messages()) == t.Offers(allow) + e.Offers(allow, t.Policy(allow))
  {
    TalkBytes(t);
    TalkOffers(t, allow);
    LastMessage(Messages(t), e, allow);
    if e.Unanswered? || e.CopyBegan? { ChainWire(e.reply); }
  }

  lemma {:induction false} LastMessage(ms: seq<Packet>, e: Ending, allow: Filter)
    ensures var all := ms + if e.ClientGone? then [] else [e.message];
      && Wire(all) == Wire(ms) + e.Sent()
      && OffersOf(allow, all) == OffersOf(allow, ms) + e.Offers(allow, PgMirrorPolicy.After(allow, FramesOf(ms), |ms|))
  {
    if e.ClientGone? {
      assert ms + [] == ms && Wire(ms) + [] == Wire(ms) && OffersOf(allow, ms) + [] == OffersOf(allow, ms);
    } else {
      WireSnoc(ms, e.message);
      OffersSnoc(allow, ms, e.message);
    }
  }

  /** A client message with the reply that the protocol asks for: for Query ('Q') and Sync ('S'),
      messages up to and including one ReadyForQuery, no COPY among them; else none. Not a
      Terminate ('X'), nor a FunctionCall ('F'), whose reply the loop does not await. */
  datatype Exchange = Exchange(message: Packet, reply: seq<Packet>)
  {
    predicate Legal() {
      Framed(message) && message.kind !in {0x58, 0x46} &&
      (forall m :: m in reply ==> Framed(m)) &&
      if message.kind in {0x51, 0x53} then
        |reply| > 0 && reply[|reply| - 1].kind == 0x5A &&
        forall i :: 0 <= i < |reply| - 1 ==> Ordinary(reply[i].kind)
      else reply == []
    }
  }

  predicate Framed(m: Packet) {
    m.kind != 0 && 4 <= |m.payload| <= 0x1000_0000 && BE32(m.payload) == |m.payload|
  }

  /** Backend messages after which a reply goes on: all but ReadyForQuery ('Z') and the three
      that begin a COPY ('G', 'H', 'W'). */
  predicate Ordinary(kind: byte) { kind !in {0x5A, 0x47, 0x48, 0x57} }

  lemma {:induction false} FramedParses(m: Packet, tail: seq<byte>)
    requires Framed(m)
    ensures ParseMessage(m.Bytes() + tail) == Message(m, tail)
  {
    var s := m.Bytes() + tail;
    assert s[1..5] == m.payload[..4] && BE32(m.payload[..4]) == BE32(m.payload);
    assert s[1..1 + |m.payload|] == m.payload && s[1 + |m.payload|..] == tail;
  }

  lemma {:induction false} WireAppend(a: seq<Packet>, b: seq<Packet>)
    ensures Wire(a + b) == Wire(a) + Wire(b)
  {
    var x, y := seq(|a|, i requires 0 <= i < |a| => a[i].Bytes()), seq(|b|, i requires 0 <= i < |b| => b[i].Bytes());
    ConcatAppend(x, y);
    assert seq(|a + b|, i requires 0 <= i < |a + b| => (a + b)[i].Bytes()) == x + y;
  }

  lemma {:induction false} WireOne(m: Packet)
    ensures Wire([m]) == m.Bytes()
  {
    ConcatOne(m.Bytes());
    assert seq(1, i requires 0 <= i < 1 => [m][i].Bytes()) == [m.Bytes()];
  }

  lemma {:induction false} WireSnoc(ms: seq<Packet>, m: Packet)
    ensures Wire(ms + [m]) == Wire(ms) + m.Bytes()
  {
    WireAppend(ms, [m]);
    WireOne(m);
  }

  lemma {:induction false} WireHead(ms: seq<Packet>)
    requires ms != []
    ensures Wire(ms) == ms[0].Bytes() + Wire(ms[1..])
  {
    assert ms == [ms[0]] + ms[1..];
    WireAppend([ms[0]], ms[1..]);
    WireOne(ms[0]);
  }

  lemma {:induction false} ReplyFramed(ms: seq<Packet>, tail: seq<byte>)
    requires |ms| > 0 && !Ordinary(ms[|ms| - 1].kind) && forall i :: 0 <= i < |ms| - 1 ==> Ordinary(ms[i].kind)
    requires forall m :: m in ms ==> Framed(m)
    ensures AwaitReady(Wire(ms) + tail) == Reply(ms, if ms[|ms| - 1].kind == 0x5A then Ready else Copying, tail)
  {
    var m, rest := ms[0], ms[1..];
    WireHead(ms);
    Regroup(m.Bytes(), Wire(rest), tail);
    FramedParses(m, Wire(rest) + tail);
    if |ms| > 1 {
      ReplyFramed(rest, tail);
      assert [m] + rest == ms;
    } else {
      assert ms == [m] && Wire(rest) + tail == tail;
    }
  }

  function Commands(xs: seq<Exchange>): seq<byte> { if xs == [] then [] else xs[0].message.Bytes() + Commands(xs[1..]) }
  function Replies(xs: seq<Exchange>): seq<byte> { if xs == [] then [] else Wire(xs[0].reply) + Replies(xs[1..]) }
  function PassesOf(xs: seq<Exchange>): seq<Pass> {
    if xs == [] then [] else [Pass(xs[0].message, xs[0].reply)] + PassesOf(xs[1..])
  }

  /** On every legal dialogue, pipelined Parse, Bind, Execute and Sync included, each message
      reaches the primary and each reply the client, in turn, and the loop is ready for what
      follows. */
  lemma {:induction false} Transparency(xs: seq<Exchange>, c: seq<byte>, p: seq<byte>)
    requires forall x :: x in xs ==> x.Legal()
    ensures Follow(Commands(xs) + c, Replies(xs) + p) == Follow(c, p).After(PassesOf(xs))
    decreases |xs|
  {
    if xs == [] {
      assert Commands(xs) + c == c && Replies(xs) + p == p;
      assert [] + Follow(c, p).passes == Follow(c, p).passes;
    } else {
      var x, rest := xs[0], xs[1..];
      assert x in xs && x.Legal();
      Regroup(x.message.Bytes(), Commands(rest), c);
      Regroup(Wire(x.reply), Replies(rest), p);
      FramedParses(x.message, Commands(rest) + c);
      if Awaits(x.message.kind) { ReplyFramed(x.reply, Replies(rest) + p); }
      assert x.reply == [] ==> Wire(x.reply) + (Replies(rest) + p) == Replies(rest) + p;
      Transparency(rest, c, p);
      Regroup([Pass(x.message, x.reply)], PassesOf(rest), Follow(c, p).passes);
    }
  }

  lemma {:induction false} CourseAppend(a: seq<Pass>, b: seq<Pass>)
    ensures MessagesOf(a + b) == MessagesOf(a) + MessagesOf(b) && RepliesOf(a + b) == RepliesOf(a) + RepliesOf(b)
  {
    var x := seq(|a|, i requires 0 <= i < |a| => Wire(a[i].reply));
    var y := seq(|b|, i requires 0 <= i < |b| => Wire(b[i].reply));
    ConcatAppend(x, y);
    assert seq(|a + b|, i requires 0 <= i < |a + b| => Wire((a + b)[i].reply)) == x + y;
  }

  lemma {:induction false} OnePassBytes(x: Pass)
    ensures MessagesOf([x]) == [x.message] && RepliesOf([x]) == Wire(x.reply)
  {
    ConcatOne(Wire(x.reply));
    assert seq(1, i requires 0 <= i < 1 => Wire([x][i].reply)) == [Wire(x.reply)];
  }

  lemma {:induction false} CourseSnoc(ps: seq<Pass>, x: Pass)
    ensures MessagesOf(ps + [x]) == MessagesOf(ps) + [x.message] && RepliesOf(ps + [x]) == RepliesOf(ps) + Wire(x.reply)
  {
    CourseAppend(ps, [x]);
    OnePassBytes(x);
  }

  /** The messages of a dialogue. */
  function Said(xs: seq<Exchange>): seq<Packet> { seq(|xs|, i requires 0 <= i < |xs| => xs[i].message) }

  lemma {:induction false} DialogueMessages(xs: seq<Exchange>)
    ensures |PassesOf(xs)| == |xs| && MessagesOf(PassesOf(xs)) == Said(xs)
    decreases |xs|
  {
    if xs != [] {
      DialogueMessages(xs[1..]);
      assert Said(xs) == [xs[0].message] + Said(xs[1..]);
    }
  }

  lemma {:induction false} DialogueBytes(xs: seq<Exchange>)
    ensures Wire(MessagesOf(PassesOf(xs))) == Commands(xs) && RepliesOf(PassesOf(xs)) == Replies(xs)
    decreases |xs|
  {
    if xs != [] {
      var x := Pass(xs[0].message, xs[0].reply);
      CourseAppend([x], PassesOf(xs[1..]));
      OnePassBytes(x);
      WireAppend([x.message], MessagesOf(PassesOf(xs[1..])));
      WireOne(x.message);
      DialogueBytes(xs[1..]);
    }
  }

  /** So a legal dialogue adds its messages' bytes to what the primary is sent and its replies'
      bytes to what the client is sent, and nothing else. */
  lemma {:induction false} DialogueAdds(xs: seq<Exchange>, c: seq<byte>, p: seq<byte>)
    requires forall x :: x in xs ==> x.Legal()
    ensures var course := Follow(Commands(xs) + c, Replies(xs) + p);
      && course.Messages() == Said(xs) + Follow(c, p).Messages()
      && course.Sent() == Commands(xs) + Follow(c, p).Sent() && course.Got() == Replies(xs) + Follow(c, p).Got()
  {
    Transparency(xs, c, p);
    DialogueBytes(xs);
    DialogueMessages(xs);
    var rest := Follow(c, p);
    CourseAppend(PassesOf(xs), rest.passes);
    var last := if rest.last.Some? then [rest.last.value] else [];
    Regroup(MessagesOf(PassesOf(xs)), MessagesOf(rest.passes), last);
    WireAppend(MessagesOf(PassesOf(xs)), rest.Messages());
    Regroup(Replies(xs), RepliesOf(rest.passes), Wire(rest.partial));
  }

  /** A legal dialogue closed by Terminate ('X'): that message goes to the primary, is not offered to
      the shadow, and nothing after it is looked at. */
  lemma {:induction false} TerminateEnds(xs: seq<Exchange>, m: Packet, c: seq<byte>, p: seq<byte>, allow: Filter)
    requires (forall x :: x in xs ==> x.Legal()) && Framed(m) && m.kind == 0x58
    ensures Follow(Commands(xs) + (m.Bytes() + c), Replies(xs) + p) == Course(PassesOf(xs), Some(m), [])
    ensures OffersOf(allow, Said(xs) + [m]) == OffersOf(allow, Said(xs))
  {
    Transparency(xs, m.Bytes() + c, p);
    FramedParses(m, c);
    assert PassesOf(xs) + [] == PassesOf(xs);
    OffersSnoc(allow, Said(xs), m);
  }

  /** One that enters a COPY: the reply is passed on up to the message that begins it ('G', 'H' or
      'W'), and the loop ends there. */
  lemma {:induction false} CopyEnds(xs: seq<Exchange>, q: Packet, reply: seq<Packet>, c: seq<byte>, p: seq<byte>)
    requires (forall x :: x in xs ==> x.Legal()) && Framed(q) && q.kind in {0x51, 0x53}
    requires reply != [] && (forall m :: m in reply ==> Framed(m)) && reply[|reply| - 1].kind in {0x47, 0x48, 0x57}
    requires forall i :: 0 <= i < |reply| - 1 ==> Ordinary(reply[i].kind)
    ensures Follow(Commands(xs) + (q.Bytes() + c), Replies(xs) + (Wire(reply) + p)) ==
            Course(PassesOf(xs), Some(q), reply)
  {
    Transparency(xs, q.Bytes() + c, Wire(reply) + p);
    FramedParses(q, c);
    ReplyFramed(reply, p);
    assert PassesOf(xs) + [] == PassesOf(xs);
  }
}
