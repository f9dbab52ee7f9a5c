/** PostgreSQL wire messages: framing on the stream, and the fields the proxy looks at. */
module PgMessages {
  import opened Network

  type Name = seq<byte>

  const MAX_MESSAGE := 0x1000_0000   // 256 MiB
  const SSL_REQUEST := 80877103
  const CANCEL_REQUEST := 80877102
  const GSSENC_REQUEST := 80877104

  // Message types, as the letters of the protocol.
  const QUERY: byte := 81        // 'Q'
  const PARSE: byte := 80        // 'P'
  const BIND: byte := 66         // 'B'
  const EXECUTE: byte := 69      // 'E'
  const SYNC: byte := 83         // 'S'
  const TERMINATE: byte := 88    // 'X'
  const CLOSE: byte := 67        // 'C'
  const DESCRIBE: byte := 68     // 'D'
  const STATEMENT: byte := 83    // 'S' in Close and Describe
  const PORTAL: byte := 80       // 'P' in Close and Describe
  const READY: byte := 90        // 'Z'
  const FUNCTION_CALL: byte := 70  // 'F'
  const COPY_IN: byte := 71      // 'G'
  const COPY_OUT: byte := 72     // 'H'
  const COPY_BOTH: byte := 87    // 'W'

  /** `kind` 0 marks a startup message; `payload` starts with the length field. */
  datatype Packet = Packet(kind: byte, payload: seq<byte>)
  {
    function Bytes(): seq<byte> { if kind == 0 then payload else [kind] + payload }
  }

  function BE32(b: seq<byte>): nat
    requires |b| >= 4
  {
    0x100_0000 * (b[0] as int) + 0x1_0000 * (b[1] as int) + 0x100 * (b[2] as int) + (b[3] as int)
  }

  function ToBE32(n: nat): seq<byte>
    requires n < 0x1_0000_0000
  {
    [n / 0x100 / 0x100 / 0x100, n / 0x100 / 0x100 % 0x100, n / 0x100 % 0x100, n % 0x100]
  }

  datatype Parsed = Message(packet: Packet, rest: seq<byte>) | BadLength | Incomplete

  function ParseMessage(s: seq<byte>): Parsed {
    if |s| < 5 then Incomplete
    else
      var length := BE32(s[1..5]);
      if length < 4 || length > MAX_MESSAGE then BadLength
      else if |s| < 1 + length then Incomplete
      else Message(Packet(s[0], s[1..1 + length]), s[1 + length..])
  }

  function ParseStartup(s: seq<byte>): Parsed {
    if |s| < 4 then Incomplete
    else
      var length := BE32(s);
      if length < 8 || length > MAX_MESSAGE then BadLength
      else if |s| < length then Incomplete
      else Message(Packet(0, s[..length]), s[length..])
  }

  // ---------------------------------------------------------------- reading

  datatype MessageError = Reading(error: ReadError) | Length

  datatype Result<+T> = Ok(value: T) | Err(error: MessageError)

  /** Reads exactly `n` bytes. What was read before an error is gone. */
  method ReadFull(conn: Conn, n: nat) returns (bytes: seq<byte>, err: Option<ReadError>)
    modifies conn
    ensures old(conn.Stream()) == bytes + conn.Stream()
    ensures err.None? ==> |bytes| == n
    ensures err == Some(EndOfStream) ==> |old(conn.Stream())| < n
    ensures old(conn.Quiet()) ==> conn.Quiet() && (err.Some? ==> err.value.EndOfStream?)
  {
    var buf := new byte[n];
    var have := 0;
    while have < n
      invariant 0 <= have <= n
      invariant old(conn.Stream()) == buf[..have] + conn.Stream()
      invariant old(conn.Quiet()) ==> conn.Quiet()
      decreases conn.Weight()
    {
      ghost var got := buf[..have];
      var k, e := conn.Read(buf, have);
      if e.Some? {
        return buf[..have], e;
      }
      Regroup(got, buf[have..have + k], conn.Stream());
      assert buf[..have + k] == got + buf[have..have + k];
      have := have + k;
    }
    return buf[..have], None;
  }

  lemma {:induction false} HeaderSplits(s: seq<byte>, header: seq<byte>, t: seq<byte>)
    requires |header| == 5 && s == header + t
    ensures |s| >= 5 && s[0] == header[0] && s[1..5] == header[1..]
  {}

  lemma {:induction false} BodySplits(s: seq<byte>, header: seq<byte>, t: seq<byte>, body: seq<byte>, rest: seq<byte>)
    requires |header| == 5 && s == header + t && t == body + rest
    ensures |s| >= 5 + |body| && s[1..5 + |body|] == header[1..] + body && s[5 + |body|..] == rest
  {}

  /** Reads one message of the steady state. */
  method ReadMessage(conn: Conn) returns (r: Result<Packet>)
    modifies conn
    ensures r.Ok? ==> ParseMessage(old(conn.Stream())) == Message(r.value, conn.Stream())
    ensures r == Err(Length) ==> ParseMessage(old(conn.Stream())).BadLength?
    ensures r == Err(Reading(EndOfStream)) ==> ParseMessage(old(conn.Stream())).Incomplete?
    ensures old(conn.Quiet()) ==> conn.Quiet() && (r.Err? ==> !ParseMessage(old(conn.Stream())).Message?)
  {
    ghost var s := conn.Stream();
    var header, err := ReadFull(conn, 5);
    if err.Some? {
      return Err(Reading(err.value));
    }
    ghost var t := conn.Stream();
    HeaderSplits(s, header, t);
    var length := BE32(header[1..]);
    if length < 4 || length > MAX_MESSAGE {
      return Err(Length);
    }
    var body;
    body, err := ReadFull(conn, length - 4);
    if err.Some? {
      return Err(Reading(err.value));
    }
    BodySplits(s, header, t, body, conn.Stream());
    return Ok(Packet(header[0], header[1..] + body));
  }

  lemma {:induction false} StartupHeader(s: seq<byte>, header: seq<byte>, t: seq<byte>)
    requires |header| == 4 && s == header + t
    ensures |s| >= 4 && s[..4] == header && BE32(s) == BE32(header)
  {}

  lemma {:induction false} StartupBody(s: seq<byte>, header: seq<byte>, t: seq<byte>, body: seq<byte>, rest: seq<byte>)
    requires s == header + t && t == body + rest
    ensures var n := |header| + |body|; n <= |s| && s[..n] == header + body && s[n..] == rest
  {}

  /** Reads a message of the startup phase, which has no type byte. */
  method ReadStartupMessage(conn: Conn) returns (r: Result<Packet>)
    modifies conn
    ensures r.Ok? ==> ParseStartup(old(conn.Stream())) == Message(r.value, conn.Stream())
    ensures r == Err(Length) ==> ParseStartup(old(conn.Stream())).BadLength?
    ensures r == Err(Reading(EndOfStream)) ==> ParseStartup(old(conn.Stream())).Incomplete?
    ensures old(conn.Quiet()) ==> conn.Quiet() && (r.Err? ==> !ParseStartup(old(conn.Stream())).Message?)
  {
    ghost var s := conn.Stream();
    var header, err := ReadFull(conn, 4);
    if err.Some? {
      return Err(Reading(err.value));
    }
    ghost var t := conn.Stream();
    StartupHeader(s, header, t);
    var length := BE32(header);
    if length < 8 || length > MAX_MESSAGE {
      return Err(Length);
    }
    var body;
    body, err := ReadFull(conn, length - 4);
    if err.Some? {
      return Err(Reading(err.value));
    }
    StartupBody(s, header, t, body, conn.Stream());
    return Ok(Packet(0, header + body));
  }

  // ---------------------------------------------------------------- writes that fail

  /** The beginning of the message that comes next on `s`. */
  predicate Torn(s: seq<byte>, torn: seq<byte>) {
    torn == [] || (ParseMessage(s).Message? && torn <= ParseMessage(s).packet.Bytes())
  }

  function Onto(whole: seq<byte>, torn: seq<byte>): seq<byte> { if torn == [] then whole else whole + torn }

  lemma {:induction false} OntoPlain(base: seq<byte>, done: seq<byte>, more: seq<byte>)
    ensures Onto(base + done, more) == base + (done + more)
  {
    Regroup(base, done, more);
    assert done + [] == done;
  }

  lemma {:induction false} OntoTwice(whole: seq<byte>, a: seq<byte>, b: seq<byte>)
    ensures Onto(whole + a, b) == Onto(whole, Onto(a, b))
  {
    Regroup(whole, a, b);
    assert a + [] == a;
  }

  // ---------------------------------------------------------------- framing round trips

  function MakeMessage(kind: byte, body: seq<byte>): Packet
    requires |body| + 4 <= 0x1000_0000
  {
    Packet(kind, ToBE32(|body| + 4) + body)
  }

  lemma {:induction false} BE32RoundTrip(n: nat)
    requires n < 0x1_0000_0000
    ensures BE32(ToBE32(n)) == n
  {}

  /** Reading what was written gives it back and leaves what follows. */
  lemma {:induction false} MessageRoundTrip(kind: byte, body: seq<byte>, tail: seq<byte>)
    requires kind != 0 && |body| + 4 <= 0x1000_0000
    ensures var m := MakeMessage(kind, body); ParseMessage(m.Bytes() + tail) == Message(m, tail)
  {
    var m := MakeMessage(kind, body);
    var s := m.Bytes() + tail;
    BE32RoundTrip(|body| + 4);
    assert s[1..5] == ToBE32(|body| + 4);
    assert s[1..1 + |m.payload|] == m.payload && s[1 + |m.payload|..] == tail;
  }

  lemma {:induction false} StartupRoundTrip(body: seq<byte>, tail: seq<byte>)
    requires 4 <= |body| && |body| + 4 <= 0x1000_0000
    ensures var m := MakeMessage(0, body); ParseStartup(m.Bytes() + tail) == Message(m, tail)
  {
    var m := MakeMessage(0, body);
    var s := m.Bytes() + tail;
    BE32RoundTrip(|body| + 4);
    assert s[..4] == ToBE32(|body| + 4);
    assert BE32(s) == BE32(s[..4]);
    assert s[..|m.payload|] == m.payload && s[|m.payload|..] == tail;
  }

  /** Which length fields are refused: below the shortest message, or above 256 MiB. */
  lemma {:induction false} LengthsExactly(s: seq<byte>)
    ensures |s| >= 5 ==> (ParseMessage(s).BadLength? <==> !(4 <= BE32(s[1..5]) <= 268435456))
    ensures |s| >= 4 ==> (ParseStartup(s).BadLength? <==> !(8 <= BE32(s) <= 268435456))
    ensures ParseMessage(s).Incomplete? <==> |s| < 5 || (4 <= BE32(s[1..5]) <= 268435456 && |s| < 1 + BE32(s[1..5]))
    ensures ParseStartup(s).Incomplete? <==> |s| < 4 || (8 <= BE32(s) <= 268435456 && |s| < BE32(s))
  {}

  /** Passing a message on reproduces the bytes read exactly when its type byte is not
      zero; a zero type byte is dropped. */
  lemma {:induction false} ReserializesExactly(s: seq<byte>)
    requires ParseMessage(s).Message?
    ensures var m := ParseMessage(s);
      (m.packet.Bytes() + m.rest == s <==> m.packet.kind != 0) && s == [m.packet.kind] + m.packet.payload + m.rest
  {
    var m := ParseMessage(s);
    assert s == [s[0]] + s[1..1 + |m.packet.payload|] + s[1 + |m.packet.payload|..];
    if m.packet.kind == 0 { assert |m.packet.Bytes() + m.rest| == |s| - 1; }
  }

  // ---------------------------------------------------------------- field extraction

  /** The position of the first zero byte, or -1. */
  function IndexNull(b: seq<byte>): int {
    if b == [] then -1 else if b[0] == 0 then 0 else
      var i := IndexNull(b[1..]);
      if i < 0 then -1 else i + 1
  }

  lemma {:induction false} IndexNullFinds(b: seq<byte>)
    ensures var i := IndexNull(b);
      -1 <= i < |b| && (forall j :: 0 <= j < (if i < 0 then |b| else i) ==> b[j] != 0) && (i >= 0 ==> b[i] == 0)
  {
    if b != [] { IndexNullFinds(b[1..]); }
  }

  /** The scan of the source, from the left. */
  method FindNull(b: seq<byte>) returns (i: int)
    ensures i == IndexNull(b)
  {
    IndexNullFinds(b);
    i := 0;
    while i < |b|
      invariant 0 <= i <= |b|
      invariant forall j :: 0 <= j < i ==> b[j] != 0
    {
      if b[i] == 0 { return; }
      i := i + 1;
    }
    i := -1;
  }

  function UpToNull(b: seq<byte>): seq<byte> {
    IndexNullFinds(b);
    var i := IndexNull(b);
    if i < 0 then [] else b[..i]
  }

  function TrimNull(b: seq<byte>): seq<byte> {
    if |b| > 0 && b[|b| - 1] == 0 then b[..|b| - 1] else b
  }

  /** The SQL text of a Query or Parse message; empty for all others. */
  function QueryText(p: Packet): seq<byte> {
    if |p.payload| <= 4 then []
    else
      var body := p.payload[4..];
      if p.kind == QUERY then TrimNull(body)
      else if p.kind == PARSE then
        IndexNullFinds(body);
        var i := IndexNull(body);
        if i < 0 then []
        else
          var rest := body[i + 1..];
          if IndexNull(rest) < 0 then rest else UpToNull(rest)
      else []
  }

  function ParseName(p: Packet): Name {
    if p.kind != PARSE || |p.payload| <= 4 then [] else UpToNull(p.payload[4..])
  }

  function BindName(p: Packet): Name {
    if p.kind != BIND || |p.payload| <= 4 then []
    else
      var body := p.payload[4..];
      IndexNullFinds(body);
      var i := IndexNull(body);
      if i < 0 || i + 1 >= |body| then [] else UpToNull(body[i + 1..])
  }

  /** Kind and name in a Close or Describe message; kind 0 when malformed. */
  function Target(p: Packet): (byte, Name) {
    if |p.payload| <= 5 then (0, []) else (p.payload[4], UpToNull(p.payload[5..]))
  }

  /** The extractors as they run, each with its scans. */
  method FindQueryText(p: Packet) returns (sql: seq<byte>)
    ensures sql == QueryText(p)
  {
    if |p.payload| <= 4 { return []; }
    var body := p.payload[4..];
    if p.kind == QUERY { return TrimNull(body); }
    if p.kind != PARSE { return []; }
    IndexNullFinds(body);
    var i := FindNull(body);
    if i < 0 { return []; }
    var rest := body[i + 1..];
    IndexNullFinds(rest);
    var end := FindNull(rest);
    return if end < 0 then rest else rest[..end];
  }

  method FindParseName(p: Packet) returns (name: Name)
    ensures name == ParseName(p)
  {
    if p.kind != PARSE || |p.payload| <= 4 { return []; }
    var body := p.payload[4..];
    IndexNullFinds(body);
    var end := FindNull(body);
    return if end < 0 then [] else body[..end];
  }

  method FindBindName(p: Packet) returns (name: Name)
    ensures name == BindName(p)
  {
    if p.kind != BIND || |p.payload| <= 4 { return []; }
    var body := p.payload[4..];
    IndexNullFinds(body);
    var i := FindNull(body);
    if i < 0 || i + 1 >= |body| { return []; }
    var rest := body[i + 1..];
    IndexNullFinds(rest);
    var end := FindNull(rest);
    return if end < 0 then [] else rest[..end];
  }

  method FindTarget(p: Packet) returns (target: byte, name: Name)
    ensures (target, name) == Target(p)
  {
    if |p.payload| <= 5 { return 0, []; }
    var rest := p.payload[5..];
    IndexNullFinds(rest);
    var end := FindNull(rest);
    return p.payload[4], if end < 0 then [] else rest[..end];
  }

  /** The portal a Bind makes and an Execute runs: the first string of both. The proxy does not
      look at it; it matters for what the servers do. */
  function PortalName(p: Packet): Name {
    if |p.payload| < 5 then [] else UpToNull(p.payload[4..])
  }

  /** A message as the mirroring policy and the servers see it. */
  datatype Frame =
    | Query(sql: seq<byte>)
    | Parse(name: Name, sql: seq<byte>)
    | Bind(portal: Name, name: Name)
    | Describe(target: byte, name: Name)
    | Close(target: byte, name: Name)
    | Execute(portal: Name)
    | Other(kind: byte)

  function FrameOf(p: Packet): Frame {
    if p.kind == QUERY then Query(QueryText(p))
    else if p.kind == PARSE then Parse(ParseName(p), QueryText(p))
    else if p.kind == BIND then Bind(PortalName(p), BindName(p))
    else if p.kind == DESCRIBE then Describe(Target(p).0, Target(p).1)
    else if p.kind == CLOSE then Close(Target(p).0, Target(p).1)
    else if p.kind == EXECUTE then Execute(PortalName(p))
    else Other(p.kind)
  }

  predicate NulFree(s: seq<byte>) { forall c :: c in s ==> c != 0 }

  lemma {:induction false} IndexNullOf(s: seq<byte>, tail: seq<byte>)
    requires NulFree(s)
    ensures IndexNull(s + [0] + tail) == |s| && UpToNull(s + [0] + tail) == s
  {
    var b := s + [0] + tail;
    IndexNullFinds(b);
    assert b[|s|] == 0;
    assert forall j :: 0 <= j < |s| ==> b[j] == s[j] && s[j] in s;
    assert b[..|s|] == s;
  }

  /** Every name and text put into a message is the one taken out of it. The message types are the
      letters Q, P, B, E, D and C. */
  lemma {:induction false} FieldsRoundTrip(name: Name, portal: Name, sql: seq<byte>, target: byte, tail: seq<byte>)
    requires NulFree(name) && NulFree(portal) && NulFree(sql)
    requires |name| + |portal| + |sql| + |tail| < 0x1000_0000 - 16
    ensures FrameOf(MakeMessage(0x51, sql + [0])) == Query(sql)
    ensures FrameOf(MakeMessage(0x50, name + [0] + (sql + [0] + tail))) == Parse(name, sql)
    ensures FrameOf(MakeMessage(0x42, portal + [0] + (name + [0] + tail))) == Bind(portal, name)
    ensures FrameOf(MakeMessage(0x45, portal + [0] + tail)) == Execute(portal)
    ensures FrameOf(MakeMessage(0x44, [target] + (name + [0] + []))) == Describe(target, name)
    ensures FrameOf(MakeMessage(0x43, [target] + (name + [0] + []))) == Close(target, name)
  {
    QueryFields(sql);
    ParseFields(name, sql, tail);
    BindFields(portal, name, tail);
    ExecuteFields(portal, tail);
    DescribeFields(target, name);
    CloseFields(target, name);
  }

  lemma {:induction false} DescribeFields(target: byte, name: Name)
    requires NulFree(name) && |name| < 0x1000_0000 - 16
    ensures FrameOf(MakeMessage(0x44, [target] + (name + [0] + []))) == Describe(target, name)
  {
    TargetFields(0x44, target, name);
  }

  lemma {:induction false} CloseFields(target: byte, name: Name)
    requires NulFree(name) && |name| < 0x1000_0000 - 16
    ensures FrameOf(MakeMessage(0x43, [target] + (name + [0] + []))) == Close(target, name)
  {
    TargetFields(0x43, target, name);
  }

  lemma {:induction false} QueryFields(sql: seq<byte>)
    requires |sql| < 0x1000_0000 - 16
    ensures FrameOf(MakeMessage(0x51, sql + [0])) == Query(sql)
  {
    assert MakeMessage(0x51, sql + [0]).payload[4..] == sql + [0];
  }

  lemma {:induction false} ParseFields(name: Name, sql: seq<byte>, tail: seq<byte>)
    requires NulFree(name) && NulFree(sql) && |name| + |sql| + |tail| < 0x1000_0000 - 16
    ensures FrameOf(MakeMessage(0x50, name + [0] + (sql + [0] + tail))) == Parse(name, sql)
  {
    var rest := sql + [0] + tail;
    var body := name + [0] + rest;
    assert MakeMessage(0x50, body).payload[4..] == body;
    IndexNullOf(name, rest);
    IndexNullOf(sql, tail);
    assert body[|name| + 1..] == rest;
  }

  lemma {:induction false} BindFields(portal: Name, name: Name, tail: seq<byte>)
    requires NulFree(portal) && NulFree(name) && |portal| + |name| + |tail| < 0x1000_0000 - 16
    ensures FrameOf(MakeMessage(0x42, portal + [0] + (name + [0] + tail))) == Bind(portal, name)
  {
    var rest := name + [0] + tail;
    var body := portal + [0] + rest;
    assert MakeMessage(0x42, body).payload[4..] == body;
    IndexNullOf(portal, rest);
    IndexNullOf(name, tail);
    assert body[|portal| + 1..] == rest;
  }

  lemma {:induction false} ExecuteFields(portal: Name, tail: seq<byte>)
    requires NulFree(portal) && |portal| + |tail| < 0x1000_0000 - 16
    ensures FrameOf(MakeMessage(0x45, portal + [0] + tail)) == Execute(portal)
  {
    var body := portal + [0] + tail;
    assert MakeMessage(0x45, body).payload[4..] == body;
    IndexNullOf(portal, tail);
  }

  lemma {:induction false} TargetFields(kind: byte, target: byte, name: Name)
    requires NulFree(name) && |name| < 0x1000_0000 - 16
    ensures Target(MakeMessage(kind, [target] + (name + [0] + []))) == (target, name)
  {
    var rest := name + [0] + [];
    var p := MakeMessage(kind, [target] + rest);
    assert p.payload[4] == target && p.payload[5..] == rest;
    IndexNullOf(name, []);
  }

  lemma {:induction false} NoNull(s: seq<byte>)
    requires NulFree(s)
    ensures IndexNull(s) == -1 && UpToNull(s) == []
  {
    IndexNullFinds(s);
    assert forall i :: 0 <= i < |s| ==> s[i] in s;
  }

  /** Messages that break off: a text without its final zero is taken as it is, a name without one
      is taken for none. */
  lemma {:induction false} BrokenOff(name: Name, portal: Name, sql: seq<byte>, target: byte)
    requires NulFree(name) && NulFree(portal) && NulFree(sql) && name != []
    requires |name| + |portal| + |sql| < 0x1000_0000 - 16
    ensures FrameOf(MakeMessage(0x50, name + [0] + sql)) == Parse(name, sql)
    ensures FrameOf(MakeMessage(0x50, name)) == Parse([], [])
    ensures BindName(MakeMessage(0x42, portal + [0] + name)) == [] && BindName(MakeMessage(0x42, portal)) == []
    ensures Target(MakeMessage(0x43, [target] + name)) == (target, []) && Target(MakeMessage(0x44, [target])) == (0, [])
  {
    BrokenParse(name, sql);
    BrokenBind(portal, name);
    NoNull(name);
    var p := MakeMessage(0x43, [target] + name);
    assert p.payload[4] == target && p.payload[5..] == name;
  }

  lemma {:induction false} BrokenParse(name: Name, sql: seq<byte>)
    requires NulFree(name) && NulFree(sql) && |name| + |sql| < 0x1000_0000 - 16
    ensures FrameOf(MakeMessage(0x50, name + [0] + sql)) == Parse(name, sql)
    ensures FrameOf(MakeMessage(0x50, name)) == Parse([], [])
  {
    var body := name + [0] + sql;
    assert MakeMessage(0x50, body).payload[4..] == body && MakeMessage(0x50, name).payload[4..] == name;
    IndexNullOf(name, sql);
    NoNull(sql);
    NoNull(name);
    assert body[|name| + 1..] == sql;
  }

  lemma {:induction false} BrokenBind(portal: Name, name: Name)
    requires NulFree(portal) && NulFree(name) && |portal| + |name| < 0x1000_0000 - 16
    ensures BindName(MakeMessage(0x42, portal + [0] + name)) == [] && BindName(MakeMessage(0x42, portal)) == []
  {
    var body := portal + [0] + name;
    assert MakeMessage(0x42, body).payload[4..] == body && MakeMessage(0x42, portal).payload[4..] == portal;
    IndexNullOf(portal, name);
    NoNull(name);
    NoNull(portal);
    assert body[|portal| + 1..] == name;
  }
}
