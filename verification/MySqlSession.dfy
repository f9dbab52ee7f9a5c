/** The command loop of the MySQL proxy: one command to the primary, its reply to the client,
    a copy of the command to the shadow, and only then the next command. */
module MySqlSession {
  import opened Network
  import opened MySqlPackets
  import opened MySqlResponse
  import opened MySqlReader

  const COM_QUIT := 0x01
  const COM_INIT_DB := 0x02
  const COM_QUERY := 0x03
  const COM_PING := 0x0E
  const COM_STMT_SEND_LONG_DATA := 0x18
  const COM_STMT_CLOSE := 0x19
  const COM_STMT_RESET := 0x1A
  const COM_RESET_CONNECTION := 0x1F

  function CommandByte(packet: seq<byte>): byte { if |packet| < 5 then 0 else packet[4] }

  predicate IsNoResponse(cmd: byte) { cmd == COM_QUIT || cmd == COM_STMT_CLOSE || cmd == COM_STMT_SEND_LONG_DATA }

  predicate IsSimple(cmd: byte) {
    cmd == COM_INIT_DB || cmd == COM_PING || cmd == COM_STMT_RESET || cmd == COM_RESET_CONNECTION
  }

  predicate IsQuit(packet: seq<byte>) { CommandByte(packet) == COM_QUIT }

  /** The SQL text of a COM_QUERY packet; empty for every other command. */
  function QueryText(packet: seq<byte>): seq<byte> {
    if CommandByte(packet) == COM_QUERY && |packet| > 5 then packet[5..] else []
  }

  /** The filter's verdict on the n-th command: an arbitrary choice, made on SQL text only. */
  predicate Allowed(choose: (nat, seq<byte>) -> bool, n: nat, packet: seq<byte>) {
    QueryText(packet) == [] || choose(n, QueryText(packet))
  }

  // ---------------------------------------------------------------- the pure dialogue

  datatype Answer = Answered(reply: seq<byte>, rest: seq<byte>) | Cut(partial: seq<byte>)
  {
    function Bytes(): seq<byte> { if Answered? then reply else partial }
  }

  /** The reply to `command` found at the front of the primary's stream. */
  function AnswerTo(command: seq<byte>, p: seq<byte>): Answer {
    if IsNoResponse(CommandByte(command)) then Answered([], p)
    else if IsSimple(CommandByte(command)) then
      var t := TakePacket(p);
      if t.NoPacket? then Cut([]) else Answered(t.packet, t.rest)
    else FullAnswer(p)
  }

  function FullAnswer(p: seq<byte>): Answer {
    var r := Scan(Start, p);
    if r.phase == Done then Answered(Concat(r.packets), r.rest) else Cut(Concat(r.packets))
  }

  datatype Turn = Turn(command: seq<byte>, reply: seq<byte>)

  datatype Ending = ClientGone | ClientQuit(command: seq<byte>) | ReplyCut(command: seq<byte>, partial: seq<byte>)
  {
    function Sent(): seq<byte> { if ClientGone? then [] else command }
    function Got(): seq<byte> { if ReplyCut? then partial else [] }
  }

  /** The bytes of many turns, and the commands of those the filter lets by. */
  function CommandsOf(ts: seq<Turn>): seq<byte> { Concat(seq(|ts|, i requires 0 <= i < |ts| => ts[i].command)) }

  function RepliesOf(ts: seq<Turn>): seq<byte> { Concat(seq(|ts|, i requires 0 <= i < |ts| => ts[i].reply)) }

  function OffersOf(choose: (nat, seq<byte>) -> bool, ts: seq<Turn>): seq<seq<byte>>
    decreases |ts|
  {
    if ts == [] then []
    else
      var n, command := |ts| - 1, ts[|ts| - 1].command;
      OffersOf(choose, ts[..n]) + if Allowed(choose, n, command) then [command] else []
  }

  datatype Course = Course(turns: seq<Turn>, ending: Ending)
  {
    function After(earlier: seq<Turn>): Course { this.(turns := earlier + turns) }
    /** All that goes to the primary, to the client and to the shadow. */
    function Sent(): seq<byte> { CommandsOf(turns) + ending.Sent() }
    function Got(): seq<byte> { RepliesOf(turns) + ending.Got() }
    function Offers(choose: (nat, seq<byte>) -> bool): seq<seq<byte>> {
      OffersOf(choose, turns) + Offer(choose, |turns|, ending)
    }
  }

  /** What a transparent proxy does with a client stream `c` and a primary stream `p`. */
  function Follow(c: seq<byte>, p: seq<byte>): Course
    decreases |c|
  {
    var t := TakeCommand(c);
    if t.NoPacket? then Course([], ClientGone)
    else if IsQuit(t.packet) then Course([], ClientQuit(t.packet))
    else
      var a := AnswerTo(t.packet, p);
      TakeCommandSplits(c);
      if a.Cut? then Course([], ReplyCut(t.packet, a.partial))
      else Follow(t.rest, a.rest).After([Turn(t.packet, a.reply)])
  }

  /** The connection ends in this way with the streams standing at `c` and `p`. */
  predicate Ends(c: seq<byte>, p: seq<byte>, ending: Ending) {
    var t := TakeCommand(c);
    match ending
    case ClientGone => t.NoPacket?
    case ClientQuit(command) => t.Taken? && t.packet == command && IsQuit(command)
    case ReplyCut(command, partial) =>
      t.Taken? && t.packet == command && !IsQuit(command) && AnswerTo(command, p) == Cut(partial)
  }

  lemma {:induction false} TakeCommandSplits(s: seq<byte>)
    ensures var t := TakeCommand(s); t.Taken? ==> s == t.packet + t.rest && |t.rest| < |s|
    decreases |s|
  {
    var t := TakePacket(s);
    if t.Taken? {
      TakePacketSplits(s);
      if PayloadLength(t.packet) == MAX_PAYLOAD {
        TakeCommandSplits(t.rest);
        var u := TakeCommand(t.rest);
        if u.Taken? { Regroup(t.packet, u.packet, u.rest); }
      }
    }
  }

  /** What is still mirrored of a turn that did not complete. */
  function Offer(choose: (nat, seq<byte>) -> bool, n: nat, ending: Ending): seq<seq<byte>> {
    if ending.ReplyCut? && Allowed(choose, n, ending.command) then [ending.command] else []
  }

  // ---------------------------------------------------------------- the running proxy

  /** The turns completed since the streams stood at `client` and `primary`. */
  datatype Talk =
    | Opening(client: seq<byte>, primary: seq<byte>)
    | Then(before: Talk, turn: Turn, client: seq<byte>, primary: seq<byte>)
  {
    predicate Genuine() {
      Then? ==>
        before.Genuine() && TakeCommand(before.client) == Taken(turn.command, client) &&
        !IsQuit(turn.command) && AnswerTo(turn.command, before.primary) == Answered(turn.reply, primary)
    }
    function Origin(): Talk { if Opening? then this else before.Origin() }
    function Turns(): seq<Turn> { if Opening? then [] else before.Turns() + [turn] }
    function Sent(): seq<byte> { if Opening? then [] else before.Sent() + turn.command }
    function Got(): seq<byte> { if Opening? then [] else before.Got() + turn.reply }
    function Length(): nat { if Opening? then 0 else before.Length() + 1 }
    function Offers(choose: (nat, seq<byte>) -> bool): seq<seq<byte>> {
      if Opening? then []
      else before.Offers(choose) + (if Allowed(choose, before.Length(), turn.command) then [turn.command] else [])
    }
  }

  /** Passes a full response on to the client; `got` is what the client was sent. */
  method AwaitFull(primary: PacketReader, toClient: Sink) returns (ok: bool, ghost got: seq<byte>)
    requires primary.Valid()
    modifies primary, primary.buf, primary.conn, toClient
    ensures primary.Valid() && (primary.buf == old(primary.buf) || fresh(primary.buf))
    ensures toClient.written == old(toClient.written) + got && got <= FullAnswer(old(primary.Remaining())).Bytes()
    ensures ok ==> FullAnswer(old(primary.Remaining())) == Answered(got, primary.Remaining())
    ensures old(primary.conn.Quiet() && toClient.Open()) ==>
      primary.conn.Quiet() && toClient.Open() && (!ok ==> FullAnswer(old(primary.Remaining())) == Cut(got))
  {
    ghost var out := toClient.written;
    var total, err;
    ghost var trail, spill;
    total, err, trail, spill := primary.ReadAndForwardResponse(toClient);
    ok, got := err.None?, trail.Bytes() + spill.sent;
    TrailScans(trail, primary.Remaining());
    if spill.packet == [] && (!trail.Phase().Live() || TakePacket(primary.Remaining()).NoPacket?) {
      TrailEnds(trail, primary.Remaining());
    }
    SpillIsPrefix(trail, spill, primary.Remaining());
    Regroup(out, trail.Bytes(), spill.sent);
    assert spill.sent == [] ==> got == trail.Bytes();
  }

  /** Passes the reply to `command` on to the client; `got` is what the client was sent. */
  method AwaitReply(command: seq<byte>, primary: PacketReader, toClient: Sink) returns (ok: bool, ghost got: seq<byte>)
    requires primary.Valid()
    modifies primary, primary.buf, primary.conn, toClient
    ensures primary.Valid() && (primary.buf == old(primary.buf) || fresh(primary.buf))
    ensures toClient.written == old(toClient.written) + got
    ensures got <= AnswerTo(command, old(primary.Remaining())).Bytes()
    ensures ok ==> AnswerTo(command, old(primary.Remaining())) == Answered(got, primary.Remaining())
    ensures old(primary.conn.Quiet() && toClient.Open()) ==>
      primary.conn.Quiet() && toClient.Open() && (!ok ==> AnswerTo(command, old(primary.Remaining())) == Cut(got))
  {
    if IsNoResponse(CommandByte(command)) {
      ok, got := true, [];
    } else if IsSimple(CommandByte(command)) {
      TakePacketSplits(primary.Remaining());
      var total, err;
      ghost var spill;
      total, err, spill := primary.ReadAndForwardSimpleResponse(toClient);
      ok := err.None?;
      if spill.packet != [] { TakePacketOf(spill.packet, primary.Remaining()); }
      got := if ok then TakePacket(old(primary.Remaining())).packet else spill.sent;
    } else {
      ok, got := AwaitFull(primary, toClient);
    }
  }

  /** What a forwarding parser has let out begins the response, also when a write failed. */
  lemma {:induction false} SpillIsPrefix(trail: Trail, spill: Spill, rest: seq<byte>)
    requires trail.Genuine() && spill.sent <= spill.packet
    requires spill.packet != [] ==> IsPacket(spill.packet) && trail.Phase().Live()
    ensures trail.Bytes() + spill.sent <= FullAnswer(trail.Bytes() + spill.Before(rest)).Bytes()
  {
    var more := Scan(trail.Phase(), spill.Before(rest)).packets;
    TrailScans(trail, spill.Before(rest));
    ConcatAppend(trail.Packets(), more);
    if spill.packet != [] {
      ScanOne(trail.Phase(), spill.packet, rest);
      ConcatStarts(spill.packet, Scan(Next(trail.Phase(), spill.packet), rest).packets);
    }
    PrefixOfLonger(spill.sent, spill.packet, Concat(more));
    PrefixJoins(trail.Bytes(), spill.sent, Concat(more));
  }

  lemma {:induction false} ConcatStarts(p: seq<byte>, ps: seq<seq<byte>>)
    ensures p <= Concat([p] + ps)
  {
    assert ([p] + ps)[1..] == ps;
  }

  lemma {:induction false} PrefixOfLonger(a: seq<byte>, b: seq<byte>, c: seq<byte>)
    requires a <= b && (b != [] ==> b <= c)
    ensures a <= c
  {}

  lemma {:induction false} PrefixJoins(a: seq<byte>, b: seq<byte>, c: seq<byte>)
    requires b <= c
    ensures a + b <= a + c
  {}

  /** Nothing, or the beginning of the one packet or command taken. */
  predicate Begins(sent: seq<byte>, t: Taken) { sent == [] || (t.Taken? && sent <= t.packet) }

  /** Reads one command from the client and writes it to the primary. */
  method PassCommand(client: PacketReader, toPrimary: Sink) returns (packet: seq<byte>, ok: bool, ghost sent: seq<byte>)
    requires client.Valid()
    modifies client, client.buf, client.conn, toPrimary
    ensures client.Valid() && (client.buf == old(client.buf) || fresh(client.buf))
    ensures toPrimary.written == old(toPrimary.written) + sent && Begins(sent, TakeCommand(old(client.Remaining())))
    ensures ok ==> TakeCommand(old(client.Remaining())) == Taken(packet, client.Remaining()) && sent == packet
    ensures ok <==> sent != [] && toPrimary.refusals == old(toPrimary.refusals)
    ensures old(client.conn.Quiet() && toPrimary.Open()) ==>
      client.conn.Quiet() && toPrimary.Open() && (!ok ==> sent == [] && TakeCommand(old(client.Remaining())).NoPacket?)
  {
    ghost var c := client.Remaining();
    var r;
    ghost var lost;
    r, lost := client.ReadMultiPacket();
    if r.Err? {
      return [], false, [];
    }
    packet := r.value;
    TakeCommandSplits(c);
    var written;
    written, ok := toPrimary.Write(packet);
    sent := packet[..written];
  }

  /** What a pass that ended the connection has left behind, whatever fault ended it: the
      beginning of the next command, and no more of a later one. If it was sent and no write to
      the primary was refused, it is that whole command and, COM_QUIT apart, exactly the filter's
      offer and an initial part of the one reply; otherwise no offer and no reply. */
  predicate Halted(c: seq<byte>, p: seq<byte>, choose: (nat, seq<byte>) -> bool, n: nat,
                   turn: Turn, offer: seq<seq<byte>>, refused: bool)
  {
    var t := TakeCommand(c);
    Begins(turn.command, t) &&
    if turn.command == [] || refused || IsQuit(t.packet) then
      turn.reply == [] && offer == [] && (!refused && turn.command != [] ==> turn.command == t.packet)
    else
      && turn.command == t.packet && turn.reply <= AnswerTo(t.packet, p).Bytes()
      && offer == if Allowed(choose, n, t.packet) then [t.packet] else []
  }

  /** One pass of the command loop; `stop` is set when the connection ends here. */
  method OneTurn(client: PacketReader, primary: PacketReader, toPrimary: Sink, toClient: Sink,
                 choose: (nat, seq<byte>) -> bool, n: nat)
    returns (stop: bool, offer: seq<seq<byte>>, ghost turn: Turn, ghost ending: Option<Ending>)
    requires client.Valid() && primary.Valid() && client != primary && client.buf != primary.buf
    requires client.conn != primary.conn && toPrimary != toClient
    modifies client, client.buf, client.conn, primary, primary.buf, primary.conn, toPrimary, toClient
    ensures client.Valid() && primary.Valid() && client.buf != primary.buf
    ensures client.buf == old(client.buf) || fresh(client.buf)
    ensures primary.buf == old(primary.buf) || fresh(primary.buf)
    ensures !stop ==>
      TakeCommand(old(client.Remaining())) == Taken(turn.command, client.Remaining()) && !IsQuit(turn.command) &&
      AnswerTo(turn.command, old(primary.Remaining())) == Answered(turn.reply, primary.Remaining())
    ensures !stop ==> offer == if Allowed(choose, n, turn.command) then [turn.command] else []
    ensures toPrimary.written == old(toPrimary.written) + turn.command
    ensures toClient.written == old(toClient.written) + turn.reply
    ensures !stop ==> toPrimary.refusals == old(toPrimary.refusals)
    ensures stop ==> Halted(old(client.Remaining()), old(primary.Remaining()), choose, n, turn, offer,
                            toPrimary.refusals != old(toPrimary.refusals))
    ensures old(client.conn.Quiet() && primary.conn.Quiet() && toPrimary.Open() && toClient.Open()) ==>
      client.conn.Quiet() && primary.conn.Quiet() && toPrimary.Open() && toClient.Open() &&
      (stop ==>
        ending.Some? && Ends(old(client.Remaining()), old(primary.Remaining()), ending.value)
        && turn == Turn(ending.value.Sent(), ending.value.Got())
        && offer == Offer(choose, n, ending.value))
  {
    stop, offer, ending := true, [], None;
    var packet, ok;
    ghost var sent;
    packet, ok, sent := PassCommand(client, toPrimary);
    turn := Turn(sent, []);
    if !ok {
      ending := Some(ClientGone);
      return;
    }
    if IsQuit(packet) {
      ending := Some(ClientQuit(packet));
      return;
    }
    if Allowed(choose, n, packet) {
      offer := [packet];
    }
    ghost var got;
    ok, got := AwaitReply(packet, primary, toClient);
    turn, ending := Turn(packet, got), Some(ReplyCut(packet, got));
    stop := !ok;
  }

  /** Both connections of one client, and the commands offered to the shadow so far. */
  class Session {
    const client: PacketReader
    const primary: PacketReader
    const toPrimary: Sink
    const toClient: Sink
    const choose: (nat, seq<byte>) -> bool
    var offered: seq<seq<byte>>

    constructor (
      client: PacketReader, primary: PacketReader, toPrimary: Sink, toClient: Sink, choose: (nat, seq<byte>) -> bool)
      ensures this.client == client && this.primary == primary
      ensures this.toPrimary == toPrimary && this.toClient == toClient
      ensures this.choose == choose && offered == []
    {
      this.client, this.primary, this.toPrimary, this.toClient := client, primary, toPrimary, toClient;
      this.choose, offered := choose, [];
    }

    ghost predicate Valid()
      reads this, client, client.buf, primary, primary.buf
    {
      client.Valid() && primary.Valid() && client != primary && client.buf != primary.buf &&
      client.conn != primary.conn && toPrimary != toClient
    }

    ghost predicate Faultless()
      reads client, primary, client.conn, primary.conn, toPrimary, toClient
    {
      client.conn.Quiet() && primary.conn.Quiet() && toPrimary.Open() && toClient.Open()
    }

    /** The streams stand where `talk` left them, and what went out is what `talk` says. */
    ghost predicate InStep(talk: Talk, outP: seq<byte>, outC: seq<byte>)
      reads this, client, client.buf, client.conn, primary, primary.buf, primary.conn, toPrimary, toClient
      requires Valid()
    {
      talk.Genuine() && talk.client == client.Remaining() && talk.primary == primary.Remaining() &&
      toPrimary.written == outP + talk.Sent() && toClient.written == outC + talk.Got() && offered == talk.Offers(choose)
    }

    method Extend(ghost talk: Talk, n: nat, ghost outP: seq<byte>, ghost outC: seq<byte>)
      returns (stop: bool, ghost next: Talk, ghost last: Turn, offer: seq<seq<byte>>, ghost ending: Option<Ending>)
      requires Valid() && InStep(talk, outP, outC) && n == talk.Length()
      modifies this, client, client.buf, client.conn, primary, primary.buf, primary.conn, toPrimary, toClient
      ensures Valid()
      ensures client.buf == old(client.buf) || fresh(client.buf)
      ensures primary.buf == old(primary.buf) || fresh(primary.buf)
      ensures next.Genuine() && next.Origin() == talk.Origin()
      ensures !stop ==> InStep(next, outP, outC) && next.Length() == n + 1 && |next.client| < |talk.client|
      ensures !stop ==> toPrimary.refusals == old(toPrimary.refusals)
      ensures stop ==> next == talk
      ensures stop ==> Halted(talk.client, talk.primary, choose, n, last, offer,
                              toPrimary.refusals != old(toPrimary.refusals))
      ensures stop ==> offered == talk.Offers(choose) + offer
      ensures stop ==> toPrimary.written == outP + talk.Sent() + last.command
      ensures stop ==> toClient.written == outC + talk.Got() + last.reply
      ensures old(Faultless()) ==> Faultless()
      ensures stop && old(Faultless()) ==>
        ending.Some? && Ends(talk.client, talk.primary, ending.value) &&
        last == Turn(ending.value.Sent(), ending.value.Got())
        && offer == Offer(choose, n, ending.value)
    {
      stop, offer, last, ending := OneTurn(client, primary, toPrimary, toClient, choose, n);
      offered := offered + offer;
      next := talk;
      if !stop {
        TakeCommandSplits(talk.client);
        Regroup(outP, talk.Sent(), last.command);
        Regroup(outC, talk.Got(), last.reply);
        next := Then(talk, last, client.Remaining(), primary.Remaining());
      }
    }

    /** The command loop. Whatever fails, the primary has only ever been sent bytes of the
        client and the client bytes of the primary, in order and without a gap; completed
        turns alternate one command with its full reply, and at most one command is ahead of the
        replies; the shadow was offered exactly the commands the filter let by of those that the
        primary took; without faults the whole course is the one `Follow` gives. */
    method Proxy() returns (ghost talk: Talk, ghost last: Turn, offer: seq<seq<byte>>, ghost ending: Option<Ending>)
      requires Valid() && offered == []
      modifies this, client, client.buf, client.conn, primary, primary.buf, primary.conn, toPrimary, toClient
      ensures talk.Genuine() && talk.Origin() == Opening(old(client.Remaining()), old(primary.Remaining()))
      ensures toPrimary.written == old(toPrimary.written) + talk.Sent() + last.command && last.command <= talk.client
      ensures toClient.written == old(toClient.written) + talk.Got() + last.reply && last.reply <= talk.primary
      ensures offered == talk.Offers(choose) + offer
      ensures Halted(talk.client, talk.primary, choose, talk.Length(), last, offer,
                     toPrimary.refusals != old(toPrimary.refusals))
      ensures old(Faultless()) ==>
        ending.Some? && Follow(old(client.Remaining()), old(primary.Remaining())) == Course(talk.Turns(), ending.value)
        && last == Turn(ending.value.Sent(), ending.value.Got())
      ensures old(Faultless()) ==>
        var course := Follow(old(client.Remaining()), old(primary.Remaining()));
        && toPrimary.written == old(toPrimary.written) + course.Sent()
        && toClient.written == old(toClient.written) + course.Got()
        && offered == course.Offers(choose)
    {
      ghost var faultless, outP, outC := Faultless(), toPrimary.written, toClient.written;
      talk := Opening(client.Remaining(), primary.Remaining());
      ghost var opening := talk;
      var n := 0;
      while true
        invariant Valid() && InStep(talk, outP, outC) && n == talk.Length() && talk.Origin() == opening
        invariant client.buf == old(client.buf) || fresh(client.buf)
        invariant primary.buf == old(primary.buf) || fresh(primary.buf)
        invariant toPrimary.refusals == old(toPrimary.refusals) && (faultless ==> Faultless())
        decreases |talk.client|
      {
        var stop;
        stop, talk, last, offer, ending := Extend(talk, n, outP, outC);
        if stop {
          HaltedIsPrefix(talk.client, talk.primary, choose, n, last, offer,
                         toPrimary.refusals != old(toPrimary.refusals));
          if faultless {
            TalkEnds(talk, ending.value);
            TalkBytes(talk, choose);
            Regroup(outP, talk.Sent(), last.command);
            Regroup(outC, talk.Got(), last.reply);
          }
          return;
        }
        n := n + 1;
      }
    }
  }

  lemma {:induction false} HaltedIsPrefix(c: seq<byte>, p: seq<byte>, choose: (nat, seq<byte>) -> bool, n: nat,
                                          turn: Turn, offer: seq<seq<byte>>, refused: bool)
    requires Halted(c, p, choose, n, turn, offer, refused)
    ensures turn.command <= c && turn.reply <= p
  {
    TakeCommandSplits(c);
    if turn.reply != [] { AnswerSplits(TakeCommand(c).packet, p); }
  }

  /** What a talk has sent is what its turns say. */
  lemma {:induction false} TalkBytes(talk: Talk, choose: (nat, seq<byte>) -> bool)
    ensures talk.Sent() == CommandsOf(talk.Turns()) && talk.Got() == RepliesOf(talk.Turns())
    ensures |talk.Turns()| == talk.Length() && talk.Offers(choose) == OffersOf(choose, talk.Turns())
  {
    if talk.Then? {
      TalkBytes(talk.before, choose);
      var ts := talk.before.Turns();
      BytesAppend(ts, [talk.turn]);
      OneTurnBytes(talk.turn);
      assert (ts + [talk.turn])[..|ts|] == ts;
    }
  }

  lemma {:induction false} TalkEnds(talk: Talk, ending: Ending)
    requires talk.Genuine() && Ends(talk.client, talk.primary, ending)
    ensures var o := talk.Origin(); Follow(o.client, o.primary) == Course(talk.Turns(), ending)
  {
    TalkFollows(talk);
    assert talk.Turns() + [] == talk.Turns();
  }

  lemma {:induction false} TalkFollows(talk: Talk)
    requires talk.Genuine()
    ensures var o := talk.Origin();
      o.client == talk.Sent() + talk.client && o.primary == talk.Got() + talk.primary &&
      Follow(o.client, o.primary) == Follow(talk.client, talk.primary).After(talk.Turns())
  {
    var rest := Follow(talk.client, talk.primary);
    match talk
    case Opening(_, _) =>
      assert [] + rest.turns == rest.turns;
    case Then(before, turn, client, primary) =>
      TalkFollows(before);
      TakeCommandSplits(before.client);
      AnswerSplits(turn.command, before.primary);
      Regroup(before.Sent(), turn.command, client);
      Regroup(before.Got(), turn.reply, primary);
      Regroup(before.Turns(), [turn], rest.turns);
  }

  lemma {:induction false} AnswerSplits(command: seq<byte>, p: seq<byte>)
    ensures var a := AnswerTo(command, p);
      if a.Answered? then p == a.reply + a.rest else a.partial <= p
  {
    TakePacketSplits(p);
    ScanSplits(Start, p);
  }

  lemma {:induction false} ScanSplits(ph: Phase, s: seq<byte>)
    ensures var r := Scan(ph, s); s == Concat(r.packets) + r.rest
    decreases |s|
  {
    var t := TakePacket(s);
    if ph.Live() && t.Taken? {
      TakePacketSplits(s);
      ScanSplits(Next(ph, t.packet), t.rest);
      var r := Scan(Next(ph, t.packet), t.rest);
      assert ([t.packet] + r.packets)[1..] == r.packets;
      Regroup(t.packet, Concat(r.packets), r.rest);
    }
  }

  // ---------------------------------------------------------------- legal dialogues

  /** A command on the wire: full packets and a last one that is not full. */
  function EncodeCommand(number: byte, payload: seq<byte>): seq<byte>
    decreases |payload|
  {
    if |payload| < 0xFFFFFF then EncodePacket(number, payload)
    else EncodePacket(number, payload[..0xFFFFFF]) + EncodeCommand((number + 1) % 256, payload[0xFFFFFF..])
  }

  lemma {:induction false} CommandRoundTrip(number: byte, payload: seq<byte>, tail: seq<byte>)
    ensures TakeCommand(EncodeCommand(number, payload) + tail) == Taken(EncodeCommand(number, payload), tail)
    decreases |payload|
  {
    if |payload| < MAX_PAYLOAD {
      EncodePacketShape(number, payload);
      TakePacketOf(EncodePacket(number, payload), tail);
    } else {
      var p := EncodePacket(number, payload[..MAX_PAYLOAD]);
      var more := EncodeCommand((number + 1) % 256, payload[MAX_PAYLOAD..]);
      EncodePacketShape(number, payload[..MAX_PAYLOAD]);
      CommandRoundTrip((number + 1) % 256, payload[MAX_PAYLOAD..], tail);
      Regroup(p, more, tail);
      TakePacketOf(p, more + tail);
    }
  }

  datatype Reply = Silence | Single(number: byte, payload: seq<byte>) | Full(response: Response)
  {
    function Bytes(): seq<byte> {
      match this
      case Silence => []
      case Single(number, payload) => EncodePacket(number, payload)
      case Full(response) => response.Bytes()
    }
  }

  /** The first byte of a payload is the command. */
  function First(payload: seq<byte>): byte { if payload == [] then 0 else payload[0] }

  lemma {:induction false} CommandShape(number: byte, payload: seq<byte>)
    ensures var c := EncodeCommand(number, payload);
      && |c| >= 4 + |payload| && CommandByte(c) == First(payload)
      && (|payload| < 0xFFFFFF ==> |c| == 4 + |payload| && c[4..] == payload)
    decreases |payload|
  {
    if |payload| < 0xFFFFFF {
      EncodePacketShape(number, payload);
      if payload != [] { assert EncodeCommand(number, payload)[4..][0] == payload[0]; }
    } else {
      var p := payload[..0xFFFFFF];
      EncodePacketShape(number, p);
      assert EncodePacket(number, p)[4..][0] == p[0];
      CommandShape((number + 1) % 256, payload[0xFFFFFF..]);
    }
  }

  /** Which reply is awaited, by the protocol's own command bytes: none for COM_STMT_SEND_LONG_DATA
      and COM_STMT_CLOSE; one packet for COM_INIT_DB, COM_PING, COM_STMT_RESET and
      COM_RESET_CONNECTION; a full response for everything else but COM_QUIT. */
  lemma {:induction false} AnswerByCommand(number: byte, payload: seq<byte>, p: seq<byte>)
    ensures var a, cmd, t := AnswerTo(EncodeCommand(number, payload), p), First(payload), TakePacket(p);
      && (cmd in {0x18, 0x19} ==> a == Answered([], p))
      && (cmd in {0x02, 0x0E, 0x1A, 0x1F} ==> a == if t.Taken? then Answered(t.packet, t.rest) else Cut([]))
      && (cmd !in {0x01, 0x18, 0x19, 0x02, 0x0E, 0x1A, 0x1F} ==> a == FullAnswer(p))
      && (IsQuit(EncodeCommand(number, payload)) <==> cmd == 0x01)
  {
    CommandShape(number, payload);
  }

  /** A command other than COM_QUIT together with the reply the protocol asks for. */
  datatype Exchange = Exchange(number: byte, payload: seq<byte>, reply: Reply)
  {
    function Command(): seq<byte> { EncodeCommand(number, payload) }
    function AsTurn(): Turn { Turn(Command(), reply.Bytes()) }
    predicate Legal() {
      var cmd := First(payload);
      cmd != 0x01 &&
      match reply
      case Silence => cmd in {0x18, 0x19}
      case Single(_, payload) => cmd in {0x02, 0x0E, 0x1A, 0x1F} && |payload| <= 0xFFFFFF
      case Full(response) => cmd !in {0x18, 0x19, 0x02, 0x0E, 0x1A, 0x1F} && response.Legal()
    }
    /** The SQL text of a COM_QUERY, as it stands on the wire. */
    function Text(): seq<byte> {
      if |payload| < 0xFFFFFF then (if payload == [] then [] else payload[1..]) else Command()[5..]
    }
    /** The filter may keep from the shadow only a COM_QUERY with some text, which it chooses by. */
    predicate Due(choose: (nat, seq<byte>) -> bool, n: nat) {
      First(payload) != 0x03 || |payload| == 1 || choose(n, Text())
    }
  }

  /** The commands among the first `n` that are due to the shadow. */
  function Dues(choose: (nat, seq<byte>) -> bool, xs: seq<Exchange>, n: nat): seq<seq<byte>>
    requires n <= |xs|
  {
    if n == 0 then [] else Dues(choose, xs, n - 1) + if xs[n - 1].Due(choose, n - 1) then [xs[n - 1].Command()] else []
  }

  lemma {:induction false} AllowedIsDue(choose: (nat, seq<byte>) -> bool, n: nat, x: Exchange)
    ensures Allowed(choose, n, x.Command()) <==> x.Due(choose, n)
  {
    CommandShape(x.number, x.payload);
    var c := x.Command();
    if 0 < |x.payload| < 0xFFFFFF { assert c[5..] == c[4..][1..]; }
  }

  lemma {:induction false} OffersAreDue(choose: (nat, seq<byte>) -> bool, xs: seq<Exchange>, n: nat)
    requires n <= |xs|
    ensures |TurnsOf(xs)| == |xs| && OffersOf(choose, TurnsOf(xs)[..n]) == Dues(choose, xs, n)
  {
    TurnsAt(xs);
    if n > 0 {
      OffersAreDue(choose, xs, n - 1);
      var ts := TurnsOf(xs);
      assert ts[..n][..n - 1] == ts[..n - 1] && ts[..n][n - 1] == xs[n - 1].AsTurn();
      AllowedIsDue(choose, n - 1, xs[n - 1]);
    }
  }

  lemma {:induction false} TurnsAt(xs: seq<Exchange>)
    ensures |TurnsOf(xs)| == |xs| && forall i :: 0 <= i < |xs| ==> TurnsOf(xs)[i] == xs[i].AsTurn()
  {
    if xs != [] { TurnsAt(xs[1..]); }
  }

  lemma {:induction false} AnswerIsReply(x: Exchange, tail: seq<byte>)
    requires x.Legal()
    ensures AnswerTo(x.Command(), x.reply.Bytes() + tail) == Answered(x.reply.Bytes(), tail) && !IsQuit(x.Command())
  {
    AnswerByCommand(x.number, x.payload, x.reply.Bytes() + tail);
    match x.reply
    case Silence => assert [] + tail == tail;
    case Single(number, payload) =>
      EncodePacketShape(number, payload);
      TakePacketOf(x.reply.Bytes(), tail);
    case Full(response) => ExactFraming(response, tail);
  }

  function Commands(xs: seq<Exchange>): seq<byte> { if xs == [] then [] else xs[0].Command() + Commands(xs[1..]) }
  function Replies(xs: seq<Exchange>): seq<byte> { if xs == [] then [] else xs[0].reply.Bytes() + Replies(xs[1..]) }
  function TurnsOf(xs: seq<Exchange>): seq<Turn> { if xs == [] then [] else [xs[0].AsTurn()] + TurnsOf(xs[1..]) }

  /** Transparency: on every legal dialogue, however long, each command reaches the primary
      and each reply the client, one after the other and to the byte, and the proxy is then
      ready for whatever follows. */
  lemma {:induction false} Transparency(xs: seq<Exchange>, c: seq<byte>, p: seq<byte>)
    requires forall x :: x in xs ==> x.Legal()
    ensures Follow(Commands(xs) + c, Replies(xs) + p) == Follow(c, p).After(TurnsOf(xs))
    decreases |xs|
  {
    if xs == [] {
      assert Commands(xs) + c == c && Replies(xs) + p == p;
      assert [] + Follow(c, p).turns == Follow(c, p).turns;
    } else {
      var x, rest := xs[0], xs[1..];
      Regroup(x.Command(), Commands(rest), c);
      Regroup(x.reply.Bytes(), Replies(rest), p);
      OneExchange(x, Commands(rest) + c, Replies(rest) + p);
      Transparency(rest, c, p);
      Regroup([x.AsTurn()], TurnsOf(rest), Follow(c, p).turns);
    }
  }

  /** One exchange is one turn, whatever follows. */
  lemma {:induction false} OneExchange(x: Exchange, c: seq<byte>, p: seq<byte>)
    requires x.Legal()
    ensures Follow(x.Command() + c, x.reply.Bytes() + p) == Follow(c, p).After([x.AsTurn()])
  {
    CommandRoundTrip(x.number, x.payload, c);
    AnswerIsReply(x, p);
  }

  lemma {:induction false} CommandsAppend(a: seq<Turn>, b: seq<Turn>)
    ensures CommandsOf(a + b) == CommandsOf(a) + CommandsOf(b)
  {
    var x, y := seq(|a|, i requires 0 <= i < |a| => a[i].command), seq(|b|, i requires 0 <= i < |b| => b[i].command);
    ConcatAppend(x, y);
    assert seq(|a + b|, i requires 0 <= i < |a + b| => (a + b)[i].command) == x + y;
  }

  lemma {:induction false} RepliesAppend(a: seq<Turn>, b: seq<Turn>)
    ensures RepliesOf(a + b) == RepliesOf(a) + RepliesOf(b)
  {
    var x, y := seq(|a|, i requires 0 <= i < |a| => a[i].reply), seq(|b|, i requires 0 <= i < |b| => b[i].reply);
    ConcatAppend(x, y);
    assert seq(|a + b|, i requires 0 <= i < |a + b| => (a + b)[i].reply) == x + y;
  }

  lemma {:induction false} BytesAppend(a: seq<Turn>, b: seq<Turn>)
    ensures CommandsOf(a + b) == CommandsOf(a) + CommandsOf(b) && RepliesOf(a + b) == RepliesOf(a) + RepliesOf(b)
  {
    CommandsAppend(a, b);
    RepliesAppend(a, b);
  }

  lemma {:induction false} OneTurnBytes(t: Turn)
    ensures CommandsOf([t]) == t.command && RepliesOf([t]) == t.reply
  {
    ConcatOne(t.command);
    ConcatOne(t.reply);
    assert seq(1, i requires 0 <= i < 1 => [t][i].command) == [t.command];
    assert seq(1, i requires 0 <= i < 1 => [t][i].reply) == [t.reply];
  }

  lemma {:induction false} DialogueBytes(xs: seq<Exchange>)
    ensures CommandsOf(TurnsOf(xs)) == Commands(xs) && RepliesOf(TurnsOf(xs)) == Replies(xs) && |TurnsOf(xs)| == |xs|
    decreases |xs|
  {
    if xs != [] {
      BytesAppend([xs[0].AsTurn()], TurnsOf(xs[1..]));
      OneTurnBytes(xs[0].AsTurn());
      DialogueBytes(xs[1..]);
    }
  }

  /** So a legal dialogue adds its commands' bytes to what the primary is sent and its replies'
      bytes to what the client is sent, and nothing else. */
  lemma {:induction false} DialogueAdds(xs: seq<Exchange>, c: seq<byte>, p: seq<byte>)
    requires forall x :: x in xs ==> x.Legal()
    ensures var course := Follow(Commands(xs) + c, Replies(xs) + p);
      course.Sent() == Commands(xs) + Follow(c, p).Sent() && course.Got() == Replies(xs) + Follow(c, p).Got()
  {
    Transparency(xs, c, p);
    DialogueBytes(xs);
    var rest := Follow(c, p);
    BytesAppend(TurnsOf(xs), rest.turns);
    Regroup(Commands(xs), CommandsOf(rest.turns), rest.ending.Sent());
    Regroup(Replies(xs), RepliesOf(rest.turns), rest.ending.Got());
  }

  /** Whole-session transparency of the running proxy: whatever the chunks in which a legal
      dialogue arrives, the primary is sent exactly the commands' bytes and the client exactly
      the replies' bytes, and after them what the rest of the two streams calls for. */
  method ProxyDialogue(session: Session, ghost xs: seq<Exchange>, ghost c: seq<byte>, ghost p: seq<byte>)
    requires session.Valid() && session.Faultless() && session.offered == []
    requires forall x :: x in xs ==> x.Legal()
    requires session.client.Remaining() == Commands(xs) + c && session.primary.Remaining() == Replies(xs) + p
    modifies session, session.client, session.client.buf, session.client.conn
    modifies session.primary, session.primary.buf, session.primary.conn, session.toPrimary, session.toClient
    ensures session.toPrimary.written == old(session.toPrimary.written) + Commands(xs) + Follow(c, p).Sent()
    ensures session.toClient.written == old(session.toClient.written) + Replies(xs) + Follow(c, p).Got()
    ensures c == [] ==>
      && session.toPrimary.written == old(session.toPrimary.written) + Commands(xs)
      && session.toClient.written == old(session.toClient.written) + Replies(xs)
      && session.offered == Dues(session.choose, xs, |xs|)
  {
    ghost var outP, outC := session.toPrimary.written, session.toClient.written;
    DialogueAdds(xs, c, p);
    Regroup(outP, Commands(xs), Follow(c, p).Sent());
    Regroup(outC, Replies(xs), Follow(c, p).Got());
    if c == [] {
      NothingLeft(p, outP + Commands(xs), outC + Replies(xs));
      DialogueOffers(xs, c, p, session.choose);
    }
    ghost var talk, last, ending;
    var offer;
    talk, last, offer, ending := session.Proxy();
  }

  lemma {:induction false} DialogueOffers(
    xs: seq<Exchange>, c: seq<byte>, p: seq<byte>, choose: (nat, seq<byte>) -> bool)
    requires (forall x :: x in xs ==> x.Legal()) && |c| == 0
    ensures Follow(Commands(xs) + c, Replies(xs) + p).Offers(choose) == OffersOf(choose, TurnsOf(xs))
    ensures OffersOf(choose, TurnsOf(xs)) == Dues(choose, xs, |xs|)
  {
    Transparency(xs, c, p);
    OffersAreDue(choose, xs, |xs|);
    assert TurnsOf(xs)[..|xs|] == TurnsOf(xs);
    assert TurnsOf(xs) + [] == TurnsOf(xs);
    assert OffersOf(choose, TurnsOf(xs)) + [] == OffersOf(choose, TurnsOf(xs));
  }

  lemma {:induction false} NothingLeft(p: seq<byte>, a: seq<byte>, b: seq<byte>)
    ensures a + Follow([], p).Sent() == a && b + Follow([], p).Got() == b
  {
    var none: seq<byte> := [];
    assert TakeCommand(none).NoPacket?;
    assert a + [] == a && b + [] == b;
  }

  /** A legal dialogue closed by COM_QUIT is followed to its end and no further. */
  lemma {:induction false} QuitEndsDialogue(
    xs: seq<Exchange>, number: byte, payload: seq<byte>, c: seq<byte>, p: seq<byte>)
    requires (forall x :: x in xs ==> x.Legal()) && First(payload) == 0x01
    ensures Follow(Commands(xs) + (EncodeCommand(number, payload) + c), Replies(xs) + p) ==
            Course(TurnsOf(xs), ClientQuit(EncodeCommand(number, payload)))
  {
    Transparency(xs, EncodeCommand(number, payload) + c, p);
    CommandRoundTrip(number, payload, c);
    CommandShape(number, payload);
    assert TurnsOf(xs) + [] == TurnsOf(xs);
  }
}
