/** Where a MySQL response ends. The parser is stated as a phase machine over packets; the
    protocol's own description of a response is a separate grammar over packet fields; the
    theorems connect the two. */
module MySqlResponse {
  import opened Network
  import opened MySqlPackets

  // ---------------------------------------------------------------- field readers

  function FromLE(b: seq<byte>): nat {
    if b == [] then 0 else (b[0] as int) + 256 * FromLE(b[1..])
  }

  function LenencSize(buf: seq<byte>): nat {
    if buf == [] then 0
    else if buf[0] == 0xFC then 3
    else if buf[0] == 0xFD then 4
    else if buf[0] == 0xFE then 9
    else 1
  }

  function LenencInt(buf: seq<byte>): nat {
    if buf == [] then 0
    else if buf[0] == 0xFC then (if |buf| >= 3 then FromLE(buf[1..3]) else 0)
    else if buf[0] == 0xFD then (if |buf| >= 4 then FromLE(buf[1..4]) else 0)
    else if buf[0] == 0xFE then (if |buf| >= 9 then FromLE(buf[1..9]) else 0)
    else buf[0]
  }

  predicate HasMoreResults(status: nat) { (status / MORE_RESULTS) % 2 == 1 }

  predicate MoreInEof(pkt: seq<byte>) { |pkt| >= 9 && HasMoreResults(FromLE(pkt[7..9])) }

  predicate MoreInOk(pkt: seq<byte>) {
    |pkt| >= 7 &&
    var pos := 5 + LenencSize(pkt[5..]);
    pos < |pkt| &&
    var pos2 := pos + LenencSize(pkt[pos..]);
    pos2 + 2 <= |pkt| && HasMoreResults(FromLE(pkt[pos2..pos2 + 2]))
  }

  /** A packet that ends the rows of a result set. */
  predicate IsRowsEnd(pkt: seq<byte>) { |pkt| >= 5 && pkt[4] == 0xFE && PayloadLength(pkt) < 9 }

  // ---------------------------------------------------------------- the phase machine

  datatype Phase = Start | Columns(left: nat) | ColumnsEnd | Rows | Done | TooShort | Overrun
  {
    predicate Live() { Start? || Columns? || ColumnsEnd? || Rows? }
  }

  function AfterPart(more: bool): Phase { if more then Start else Done }

  function AwaitColumns(n: nat): Phase { if n == 0 then ColumnsEnd else Columns(n) }

  function Next(ph: Phase, pkt: seq<byte>): Phase {
    match ph
    case Start =>
      if |pkt| < 5 then TooShort
      else if pkt[4] == 0x00 then AfterPart(MoreInOk(pkt))
      else if pkt[4] == 0xFF || pkt[4] == 0xFB then Done
      else if pkt[4] == 0xFE then AfterPart(MoreInEof(pkt))
      else AwaitColumns(LenencInt(pkt[4..]))
    case Columns(left) => AwaitColumns(if left == 0 then 0 else left - 1)
    case ColumnsEnd => if |pkt| >= 5 && pkt[4] == 0x00 then AfterPart(MoreInOk(pkt)) else Rows
    case Rows => if IsRowsEnd(pkt) then AfterPart(MoreInEof(pkt)) else Rows
    case _ => Overrun
  }

  datatype Scanned = Scanned(packets: seq<seq<byte>>, phase: Phase, rest: seq<byte>)
  {
    function After(seen: seq<seq<byte>>): Scanned { this.(packets := seen + packets) }
  }

  /** Packets of `s` consumed from phase `ph` until the machine stops or input runs out. */
  function Scan(ph: Phase, s: seq<byte>): Scanned
    decreases |s|
  {
    var t := TakePacket(s);
    if !ph.Live() || t.NoPacket? then Scanned([], ph, s)
    else Scan(Next(ph, t.packet), t.rest).After([t.packet])
  }

  lemma {:induction false} AfterTwice(a: seq<seq<byte>>, b: seq<seq<byte>>, r: Scanned)
    ensures r.After(b).After(a) == r.After(a + b)
  {
    Regroup(a, b, r.packets);
  }

  function Run(ph: Phase, ps: seq<seq<byte>>): Phase
    decreases |ps|
  {
    if ps == [] then ph else Run(Next(ph, ps[0]), ps[1..])
  }

  predicate AllPackets(ps: seq<seq<byte>>) { forall p :: p in ps ==> IsPacket(p) }

  lemma {:induction false} RunAppend(ph: Phase, a: seq<seq<byte>>, b: seq<seq<byte>>)
    requires AllPackets(a) && AllPackets(b)
    ensures AllPackets(a + b) && Run(ph, a + b) == Run(Run(ph, a), b)
    decreases |a|
  {
    if a == [] {
      assert a + b == b;
    } else {
      RunAppend(Next(ph, a[0]), a[1..], b);
      assert (a + b)[1..] == a[1..] + b;
    }
  }

  lemma {:induction false} OverrunStays(ph: Phase, ps: seq<seq<byte>>)
    requires AllPackets(ps) && ps != [] && !ph.Live()
    ensures Run(ph, ps) == Overrun
    decreases |ps|
  {
    if |ps| > 1 { OverrunStays(Overrun, ps[1..]); }
  }

  lemma {:induction false} ConcatCons(ps: seq<seq<byte>>, tail: seq<byte>)
    requires ps != []
    ensures Concat(ps) + tail == ps[0] + (Concat(ps[1..]) + tail) && [ps[0]] + ps[1..] == ps
  {
    Regroup(ps[0], Concat(ps[1..]), tail);
  }

  /** The machine never looks past the packets that stop it. */
  lemma {:induction false} ScanRun(ph: Phase, ps: seq<seq<byte>>, tail: seq<byte>)
    requires AllPackets(ps) && Run(ph, ps) != Overrun
    ensures Scan(ph, Concat(ps) + tail) == Scan(Run(ph, ps), tail).After(ps)
    decreases |ps|
  {
    if ps == [] {
      assert Concat(ps) + tail == tail;
    } else {
      assert ph.Live() by { if !ph.Live() { OverrunStays(ph, ps); } }
      var p, more := ps[0], ps[1..];
      ScanRun(Next(ph, p), more, tail);
      ScanHead(ph, p, more, Concat(more) + tail, Scan(Run(Next(ph, p), more), tail));
      ConcatCons(ps, tail);
    }
  }

  lemma {:induction false} ScanHead(ph: Phase, p: seq<byte>, more: seq<seq<byte>>, rest: seq<byte>, end: Scanned)
    requires IsPacket(p) && ph.Live() && Scan(Next(ph, p), rest) == end.After(more)
    ensures Scan(ph, p + rest) == end.After([p] + more)
  {
    ScanOne(ph, p, rest);
    AfterTwice([p], more, end);
  }

  lemma {:induction false} ScanOne(ph: Phase, p: seq<byte>, rest: seq<byte>)
    requires ph.Live() && IsPacket(p)
    ensures Scan(ph, p + rest) == Scan(Next(ph, p), rest).After([p])
  {
    TakePacketOf(p, rest);
  }

  /** The packets a parser has handled so far, latest last. */
  datatype Trail = Nothing | Past(before: Trail, packet: seq<byte>)
  {
    function Phase(): Phase {
      match this
      case Nothing => Start
      case Past(before, packet) => Next(before.Phase(), packet)
    }
    function Bytes(): seq<byte> {
      match this
      case Nothing => []
      case Past(before, packet) => before.Bytes() + packet
    }
    function Packets(): seq<seq<byte>> {
      match this
      case Nothing => []
      case Past(before, packet) => before.Packets() + [packet]
    }
    predicate Genuine() {
      Past? ==> before.Genuine() && before.Phase().Live() && IsPacket(packet)
    }
  }

  /** A parser that has left a trail is the scanner of the whole input, that far along. */
  lemma {:induction false} TrailScans(t: Trail, rest: seq<byte>)
    requires t.Genuine()
    ensures Scan(Start, t.Bytes() + rest) == Scan(t.Phase(), rest).After(t.Packets())
    ensures t.Bytes() == Concat(t.Packets())
  {
    match t
    case Nothing =>
      assert t.Bytes() + rest == rest;
      var r := Scan(Start, rest);
      assert [] + r.packets == r.packets;
    case Past(before, packet) =>
      TrailScans(before, packet + rest);
      Regroup(before.Bytes(), packet, rest);
      ScanOne(before.Phase(), packet, rest);
      AfterTwice(before.Packets(), [packet], Scan(t.Phase(), rest));
      ConcatSnoc(before.Packets(), packet);
  }

  /** A parser that stopped, or that the end of the input stopped, has done the whole scan. */
  lemma {:induction false} TrailEnds(t: Trail, rest: seq<byte>)
    requires t.Genuine() && (!t.Phase().Live() || TakePacket(rest).NoPacket?)
    ensures Scan(Start, t.Bytes() + rest) == Scanned(t.Packets(), t.Phase(), rest)
    ensures t.Bytes() == Concat(t.Packets())
  {
    TrailScans(t, rest);
    assert t.Packets() + [] == t.Packets();
  }

  /** Two parsers of one input that both ran to their end handled the same packets. */
  lemma {:induction false} ParsersAgree(a: Trail, restA: seq<byte>, b: Trail, restB: seq<byte>)
    requires a.Genuine() && b.Genuine() && a.Bytes() + restA == b.Bytes() + restB
    requires !a.Phase().Live() || TakePacket(restA).NoPacket?
    requires !b.Phase().Live() || TakePacket(restB).NoPacket?
    ensures a.Packets() == b.Packets() && a.Phase() == b.Phase() && restA == restB
    ensures a.Bytes() == b.Bytes()
  {
    TrailEnds(a, restA);
    TrailEnds(b, restB);
  }

  // ---------------------------------------------------------------- the grammar

  function ToLE(n: nat, k: nat): seq<byte> {
    if k == 0 then [] else [n % 256] + ToLE(n / 256, k - 1)
  }

  function Pow256(k: nat): nat { if k == 0 then 1 else 256 * Pow256(k - 1) }

  function EncodeInt(n: nat): seq<byte> {
    if n < 251 then [n]
    else if n < 0x1_0000 then [0xFC] + ToLE(n, 2)
    else if n < 0x100_0000 then [0xFD] + ToLE(n, 3)
    else [0xFE] + ToLE(n, 8)
  }

  function EncodePacket(number: byte, payload: seq<byte>): seq<byte> {
    ToLE(|payload|, 3) + [number] + payload
  }

  /** The sixteen status flags: the fourth says that more results follow. */
  datatype Status = Status(low: nat, more: bool, high: nat)
  {
    function Value(): nat { low + (if more then 8 else 0) + 16 * high }
    predicate Legal() { low < 8 && high < 0x1000 }
  }

  /** The bit that the parser looks at is that flag, whatever the other flags are. */
  lemma {:induction false} StatusRoundTrip(status: Status)
    requires status.Legal()
    ensures HasMoreResults(status.Value()) == status.more && status.Value() < 0x1_0000
  {}

  /** OK_Packet: marker, affected rows, last insert id, status flags, then warnings and info. */
  datatype OkFields = OkFields(number: byte, affected: nat, insertId: nat, status: Status, trailer: seq<byte>)
  {
    function Bytes(): seq<byte> {
      EncodePacket(number, [0x00] + EncodeInt(affected) + EncodeInt(insertId) + ToLE(status.Value(), 2) + trailer)
    }
    predicate Legal() {
      affected < Pow256(8) && insertId < Pow256(8) && status.Legal() &&
      2 <= |trailer| && |trailer| < MAX_PAYLOAD - 32
    }
  }

  /** EOF_Packet: marker, warnings, status flags. */
  datatype EofFields = EofFields(number: byte, warnings: nat, status: Status)
  {
    function Bytes(): seq<byte> { EncodePacket(number, [0xFE] + ToLE(warnings, 2) + ToLE(status.Value(), 2)) }
    predicate Legal() { warnings < 0x1_0000 && status.Legal() }
  }

  /** A packet that has the marker of an EOF packet and a payload of fewer than nine bytes. */
  predicate EofShaped(p: seq<byte>) { 5 <= |p| < 13 && p[4] == 0xFE }

  datatype Part =
    | Acknowledged(ok: OkFields)
    | Ended(eof: EofFields)
    | ColumnsOnly(number: byte, columns: seq<seq<byte>>, ok: OkFields)
    | ResultSet(number: byte, columns: seq<seq<byte>>, mid: EofFields, rows: seq<seq<byte>>, eof: EofFields)
  {
    predicate FlagsMore() {
      if Acknowledged? || ColumnsOnly? then ok.status.more else eof.status.more
    }

    predicate LegalColumns() requires ColumnsOnly? || ResultSet? {
      0 < |columns| < 0x100_0000 && AllPackets(columns)
    }

    predicate Legal() {
      match this
      case Acknowledged(ok) => ok.Legal()
      case Ended(eof) => eof.Legal()
      case ColumnsOnly(_, _, ok) => LegalColumns() && ok.Legal()
      case ResultSet(_, _, mid, rows, eof) =>
        LegalColumns() && mid.Legal() && eof.Legal() && AllPackets(rows) && forall r :: r in rows ==> !EofShaped(r)
    }

    function Packets(): seq<seq<byte>> {
      match this
      case Acknowledged(ok) => [ok.Bytes()]
      case Ended(eof) => [eof.Bytes()]
      case ColumnsOnly(number, columns, ok) =>
        [EncodePacket(number, EncodeInt(|columns|))] + columns + [ok.Bytes()]
      case ResultSet(number, columns, mid, rows, eof) =>
        ResultSetHead(number, columns, mid) + rows + [eof.Bytes()]
    }
  }

  function ResultSetHead(number: byte, columns: seq<seq<byte>>, mid: EofFields): seq<seq<byte>> {
    [EncodePacket(number, EncodeInt(|columns|))] + columns + [mid.Bytes()]
  }

  /** COM_QUERY response: parts flagged "more results" up to one that is not, or to an
      error or a request for a local file. */
  datatype Response =
    | Final(part: Part)
    | Failed(number: byte, message: seq<byte>)
    | WantsFile(number: byte, name: seq<byte>)
    | More(part: Part, next: Response)
  {
    predicate Legal() {
      match this
      case Final(part) => part.Legal() && !part.FlagsMore()
      case Failed(_, message) => |message| < MAX_PAYLOAD
      case WantsFile(_, name) => |name| < MAX_PAYLOAD
      case More(part, next) => part.Legal() && part.FlagsMore() && next.Legal()
    }

    function Packets(): seq<seq<byte>> {
      match this
      case Final(part) => part.Packets()
      case Failed(number, message) => [EncodePacket(number, [0xFF] + message)]
      case WantsFile(number, name) => [EncodePacket(number, [0xFB] + name)]
      case More(part, next) => part.Packets() + next.Packets()
    }

    function Bytes(): seq<byte> { Concat(Packets()) }
  }

  // ---------------------------------------------------------------- encodings read back

  lemma {:induction false} ToLERoundTrip(n: nat, k: nat)
    requires n < Pow256(k)
    ensures |ToLE(n, k)| == k && FromLE(ToLE(n, k)) == n
  {
    if k > 0 {
      ToLERoundTrip(n / 256, k - 1);
      assert ToLE(n, k)[1..] == ToLE(n / 256, k - 1);
    }
  }

  lemma {:induction false} Powers()
    ensures Pow256(1) == 0x100 && Pow256(2) == 0x1_0000 && Pow256(3) == 0x100_0000
  {
    assert Pow256(1) == 256 * Pow256(0);
    assert Pow256(2) == 256 * Pow256(1);
    assert Pow256(3) == 256 * Pow256(2);
  }

  lemma {:induction false} EncodeIntRoundTrip(n: nat, tail: seq<byte>)
    requires n < Pow256(8)
    ensures LenencSize(EncodeInt(n) + tail) == |EncodeInt(n)| <= 9
    ensures LenencInt(EncodeInt(n) + tail) == n
  {
    Powers();
    if n >= 251 {
      var k := if n < 0x1_0000 then 2 else if n < 0x100_0000 then 3 else 8;
      ToLERoundTrip(n, k);
      assert (EncodeInt(n) + tail)[1..1 + k] == ToLE(n, k);
    }
  }

  lemma {:induction false} EncodePacketShape(number: byte, payload: seq<byte>)
    requires |payload| <= MAX_PAYLOAD
    ensures var p := EncodePacket(number, payload);
      IsPacket(p) && |p| == 4 + |payload| && p[3] == number && p[4..] == payload
  {
    Powers();
    ToLERoundTrip(|payload|, 3);
    var h := ToLE(|payload|, 3);
    assert FromLE(h) == (h[0] as int) + 256 * FromLE(h[1..]);
    assert FromLE(h[1..]) == (h[1] as int) + 256 * FromLE(h[2..]) by { assert h[1..][1..] == h[2..]; }
    assert FromLE(h[2..]) == h[2] by { assert h[2..][1..] == []; }
  }

  /** Four pieces laid end to end can be found again by their lengths. */
  lemma {:induction false} Pieces(p: seq<byte>, at: nat, a: seq<byte>, b: seq<byte>, s: seq<byte>, t: seq<byte>)
    requires at <= |p| && p[at..] == a + b + s + t
    ensures p[at..] == a + (b + s + t)
    ensures p[at + |a|..] == b + (s + t)
    ensures p[at + |a| + |b|..at + |a| + |b| + |s|] == s
  {}

  /** The status flags stand after two length-encoded integers. */
  lemma {:induction false} FlagFound(p: seq<byte>, a: seq<byte>, b: seq<byte>, s: seq<byte>, t: seq<byte>)
    requires |p| >= 7 && p[5..] == a + b + s + t && |s| == 2
    requires LenencSize(a + (b + s + t)) == |a| && LenencSize(b + (s + t)) == |b|
    ensures MoreInOk(p) == HasMoreResults(FromLE(s))
  {
    Pieces(p, 5, a, b, s, t);
  }

  lemma {:induction false} MarkedShape(number: byte, marker: byte, body: seq<byte>)
    requires |body| < MAX_PAYLOAD
    ensures var p := EncodePacket(number, [marker] + body);
      IsPacket(p) && |p| == 5 + |body| && p[4] == marker && p[5..] == body
  {
    var payload := [marker] + body;
    EncodePacketShape(number, payload);
    var p := EncodePacket(number, payload);
    assert p[4..][0] == marker && p[4..][1..] == body;
  }

  lemma {:induction false} OkRoundTrip(ok: OkFields)
    requires ok.Legal()
    ensures IsPacket(ok.Bytes()) && |ok.Bytes()| >= 5 && ok.Bytes()[4] == 0x00
    ensures MoreInOk(ok.Bytes()) == ok.status.more
  {
    Powers();
    StatusRoundTrip(ok.status);
    var a, b, s := EncodeInt(ok.affected), EncodeInt(ok.insertId), ToLE(ok.status.Value(), 2);
    EncodeIntRoundTrip(ok.affected, b + s + ok.trailer);
    EncodeIntRoundTrip(ok.insertId, s + ok.trailer);
    ToLERoundTrip(ok.status.Value(), 2);
    MarkedShape(ok.number, 0x00, a + b + s + ok.trailer);
    assert [0x00] + a + b + s + ok.trailer == [0x00] + (a + b + s + ok.trailer);
    FlagFound(ok.Bytes(), a, b, s, ok.trailer);
  }

  lemma {:induction false} EofRoundTrip(eof: EofFields)
    requires eof.Legal()
    ensures IsPacket(eof.Bytes()) && IsRowsEnd(eof.Bytes())
    ensures MoreInEof(eof.Bytes()) == eof.status.more
  {
    Powers();
    StatusRoundTrip(eof.status);
    var w, s := ToLE(eof.warnings, 2), ToLE(eof.status.Value(), 2);
    var payload := [0xFE] + w + s;
    ToLERoundTrip(eof.warnings, 2);
    ToLERoundTrip(eof.status.Value(), 2);
    EncodePacketShape(eof.number, payload);
    var p := eof.Bytes();
    assert p[4] == payload[0];
    assert p[7..9] == p[4..][3..5] == s;
  }

  // ---------------------------------------------------------------- grammar meets machine

  lemma {:induction false} RunColumns(columns: seq<seq<byte>>)
    requires AllPackets(columns)
    ensures Run(AwaitColumns(|columns|), columns) == ColumnsEnd
  {
    if columns != [] { RunColumns(columns[1..]); }
  }

  lemma {:induction false} RunRows(rows: seq<seq<byte>>)
    requires AllPackets(rows) && forall r :: r in rows ==> !EofShaped(r)
    ensures Run(Rows, rows) == Rows
  {
    if rows != [] {
      RowsEndShape(rows[0]);
      RunRows(rows[1..]);
    }
  }

  /** What the parser takes for the end of the rows. */
  lemma {:induction false} RowsEndShape(p: seq<byte>)
    requires IsPacket(p)
    ensures IsRowsEnd(p) <==> EofShaped(p)
  {}

  lemma {:induction false} RunOne(ph: Phase, p: seq<byte>)
    requires IsPacket(p)
    ensures Run(ph, [p]) == Next(ph, p)
  {
    assert Run(Next(ph, p), [p][1..]) == Next(ph, p);
  }

  lemma {:induction false} RunColumnsHead(number: byte, columns: seq<seq<byte>>)
    requires 0 < |columns| < 0x100_0000 && AllPackets(columns)
    ensures var head := [EncodePacket(number, EncodeInt(|columns|))] + columns;
      AllPackets(head) && Run(Start, head) == ColumnsEnd
  {
    var n := |columns|;
    Powers();
    assert Pow256(8) == 256 * Pow256(7) && Pow256(7) == 256 * Pow256(6) && Pow256(6) == 256 * Pow256(5)
        && Pow256(5) == 256 * Pow256(4) && Pow256(4) == 256 * Pow256(3);
    EncodeIntRoundTrip(n, []);
    assert EncodeInt(n) + [] == EncodeInt(n);
    EncodePacketShape(number, EncodeInt(n));
    var p := EncodePacket(number, EncodeInt(n));
    assert p[4] == EncodeInt(n)[0];
    RunOne(Start, p);
    RunColumns(columns);
    RunAppend(Start, [p], columns);
  }

  lemma {:induction false} RunPart(part: Part)
    requires part.Legal()
    ensures AllPackets(part.Packets())
    ensures Run(Start, part.Packets()) == AfterPart(part.FlagsMore())
  {
    match part
    case Acknowledged(ok) =>
      OkRoundTrip(ok);
      RunOne(Start, ok.Bytes());
    case Ended(eof) =>
      EofRoundTrip(eof);
      RunOne(Start, eof.Bytes());
    case ColumnsOnly(number, columns, ok) =>
      RunColumnsHead(number, columns);
      OkRoundTrip(ok);
      RunOne(ColumnsEnd, ok.Bytes());
      RunAppend(Start, [EncodePacket(number, EncodeInt(|columns|))] + columns, [ok.Bytes()]);
    case ResultSet(number, columns, mid, rows, eof) =>
      RunResultSetHead(number, columns, mid);
      RunRows(rows);
      EofRoundTrip(eof);
      RunOne(Rows, eof.Bytes());
      var head := ResultSetHead(number, columns, mid);
      RunAppend(Start, head, rows);
      RunAppend(Start, head + rows, [eof.Bytes()]);
  }

  lemma {:induction false} RunResultSetHead(number: byte, columns: seq<seq<byte>>, mid: EofFields)
    requires 0 < |columns| < 0x100_0000 && AllPackets(columns) && mid.Legal()
    ensures var head := ResultSetHead(number, columns, mid);
      AllPackets(head) && Run(Start, head) == Rows
  {
    RunColumnsHead(number, columns);
    EofRoundTrip(mid);
    RunOne(ColumnsEnd, mid.Bytes());
    RunAppend(Start, [EncodePacket(number, EncodeInt(|columns|))] + columns, [mid.Bytes()]);
  }

  lemma {:induction false} RunResponse(r: Response)
    requires r.Legal()
    ensures AllPackets(r.Packets()) && Run(Start, r.Packets()) == Done
  {
    match r
    case Final(part) => RunPart(part);
    case Failed(number, message) =>
      EncodePacketShape(number, [0xFF] + message);
      assert EncodePacket(number, [0xFF] + message)[4..][0] == 0xFF;
      RunOne(Start, EncodePacket(number, [0xFF] + message));
    case WantsFile(number, name) =>
      EncodePacketShape(number, [0xFB] + name);
      assert EncodePacket(number, [0xFB] + name)[4..][0] == 0xFB;
      RunOne(Start, EncodePacket(number, [0xFB] + name));
    case More(part, next) =>
      RunPart(part);
      RunResponse(next);
      RunAppend(Start, part.Packets(), next.Packets());
  }

  /** Exact framing: whatever follows a legal response on the wire, the parser consumes
      that response and nothing more. */
  lemma {:induction false} ExactFraming(r: Response, tail: seq<byte>)
    requires r.Legal()
    ensures Scan(Start, r.Bytes() + tail) == Scanned(r.Packets(), Done, tail)
  {
    RunResponse(r);
    ScanRun(Start, r.Packets(), tail);
    assert r.Packets() + [] == r.Packets();
  }

  /** A response, or a further part of one, that begins with an empty packet is refused there. */
  lemma {:induction false} EmptyPacketRefused(number: byte, tail: seq<byte>)
    ensures var p := EncodePacket(number, []);
      Scan(Start, p + tail) == Scanned([p], TooShort, tail)
  {
    EncodePacketShape(number, []);
    ScanOne(Start, EncodePacket(number, []), tail);
    var p := EncodePacket(number, []);
    assert [p] + [] == [p];
  }

  /** No legal response is a proper prefix of another. */
  lemma {:induction false} ResponsesArePrefixFree(r1: Response, tail1: seq<byte>, r2: Response, tail2: seq<byte>)
    requires r1.Legal() && r2.Legal() && r1.Bytes() + tail1 == r2.Bytes() + tail2
    ensures r1.Packets() == r2.Packets() && tail1 == tail2
  {
    ExactFraming(r1, tail1);
    ExactFraming(r2, tail2);
  }

  /** While a legal response is only partly on the wire, the parser keeps asking for more. */
  lemma {:induction false} PartialResponseIsLive(r: Response, k: nat)
    requires r.Legal() && k < |r.Packets()|
    ensures Run(Start, r.Packets()[..k]).Live()
  {
    RunResponse(r);
    var a, b := r.Packets()[..k], r.Packets()[k..];
    assert r.Packets() == a + b;
    RunAppend(Start, a, b);
    if !Run(Start, a).Live() { OverrunStays(Run(Start, a), b); }
  }

  /** After the rows read so far, packet `t` ends the result set exactly when it is an
      EOF-shaped packet. */
  lemma {:induction false} RowTerminator(number: byte, columns: seq<seq<byte>>, mid: EofFields,
                                         rows: seq<seq<byte>>, t: seq<byte>)
    requires 0 < |columns| < 0x100_0000 && AllPackets(columns) && mid.Legal()
    requires AllPackets(rows) && (forall r :: r in rows ==> !EofShaped(r)) && IsPacket(t)
    ensures var ps := ResultSetHead(number, columns, mid) + rows + [t];
      AllPackets(ps) && (Run(Start, ps) == Rows <==> !EofShaped(t))
  {
    RowsEndShape(t);
    var head := ResultSetHead(number, columns, mid);
    RunResultSetHead(number, columns, mid);
    RunRows(rows);
    RunOne(Rows, t);
    RunAppend(Start, head, rows);
    RunAppend(Start, head + rows, [t]);
  }

  lemma {:induction false} RunRowOne(head: seq<seq<byte>>, rows: seq<seq<byte>>, k: nat)
    requires AllPackets(head) && AllPackets(rows) && k < |rows| && Run(Start, head + rows[..k]) == Rows
    ensures Run(Start, head + rows[..k + 1]) == Next(Rows, rows[k])
  {
    Regroup(head, rows[..k], [rows[k]]);
    assert rows[..k + 1] == rows[..k] + [rows[k]] && rows[k] in rows;
    RunAppend(Start, head + rows[..k], [rows[k]]);
    RunOne(Rows, rows[k]);
  }

  /** The parser stands among the rows after each of them. */
  predicate ReadsAsRows(head: seq<seq<byte>>, rows: seq<seq<byte>>) {
    forall k :: 0 <= k <= |rows| ==> Run(Start, head + rows[..k]) == Rows
  }

  /** Exactly which packets are read as one result set: after any legal head, whatever the rows
      and the last packet are, the parser takes the rows for rows and the last packet for their
      end if and only if no row has the shape of an EOF packet and the last packet has it. */
  lemma {:induction false} ResultSetExactly(number: byte, columns: seq<seq<byte>>, mid: EofFields,
                                            rows: seq<seq<byte>>, t: seq<byte>)
    requires 0 < |columns| < 0x100_0000 && AllPackets(columns) && mid.Legal() && AllPackets(rows) && IsPacket(t)
    ensures var head := ResultSetHead(number, columns, mid);
      ReadsAsRows(head, rows) && Run(Start, head + rows + [t]) == AfterPart(MoreInEof(t)) <==>
      (forall k :: 0 <= k < |rows| ==> !EofShaped(rows[k])) && EofShaped(t)
  {
    RowsEndShape(t);
    var head := ResultSetHead(number, columns, mid);
    RunResultSetHead(number, columns, mid);
    RunAppend(Start, head, rows);
    RunAppend(Start, head + rows, [t]);
    RunOne(Run(Start, head + rows), t);
    assert rows[..|rows|] == rows;
    if ReadsAsRows(head, rows) {
      forall k | 0 <= k < |rows| ensures !EofShaped(rows[k]) {
        assert rows[k] in rows;
        RowsEndShape(rows[k]);
        assert Run(Start, head + rows[..k]) == Rows && Run(Start, head + rows[..k + 1]) == Rows;
        RunRowOne(head, rows, k);
      }
      assert Run(Start, head + rows[..|rows|]) == Rows;
    }
    if forall k :: 0 <= k < |rows| ==> !EofShaped(rows[k]) {
      forall k | 0 <= k <= |rows| ensures Run(Start, head + rows[..k]) == Rows { RowsUpTo(head, rows, k); }
      RowsUpTo(head, rows, |rows|);
    }
  }

  lemma {:induction false} RowsUpTo(head: seq<seq<byte>>, rows: seq<seq<byte>>, k: nat)
    requires AllPackets(head) && AllPackets(rows) && k <= |rows| && Run(Start, head) == Rows
    requires forall i :: 0 <= i < |rows| ==> !EofShaped(rows[i])
    ensures Run(Start, head + rows[..k]) == Rows
  {
    if k == 0 {
      assert head + rows[..0] == head;
    } else {
      RowsUpTo(head, rows, k - 1);
      assert rows[k - 1] in rows;
      RowsEndShape(rows[k - 1]);
      RunRowOne(head, rows, k - 1);
    }
  }

  /** An error packet sent in the middle of the rows ends the response for the server but
      not for the parser, which goes on to wait for another packet. */
  lemma {:induction false} ErrorAmongRowsIsMissed(number: byte, columns: seq<seq<byte>>, mid: EofFields,
                                                  rows: seq<seq<byte>>, message: seq<byte>)
    requires 0 < |columns| < 0x100_0000 && AllPackets(columns) && mid.Legal()
    requires AllPackets(rows) && (forall r :: r in rows ==> !EofShaped(r)) && |message| < MAX_PAYLOAD
    ensures var ps := ResultSetHead(number, columns, mid) + rows + [EncodePacket(number, [0xFF] + message)];
      Scan(Start, Concat(ps)) == Scanned(ps, Rows, [])
  {
    var t := EncodePacket(number, [0xFF] + message);
    EncodePacketShape(number, [0xFF] + message);
    assert t[4..][0] == 0xFF;
    RowTerminator(number, columns, mid, rows, t);
    var ps := ResultSetHead(number, columns, mid) + rows + [t];
    ScanRun(Start, ps, []);
    assert Concat(ps) + [] == Concat(ps) && ps + [] == ps;
  }
}
