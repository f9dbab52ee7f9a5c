/** The buffered packet reader: a window `buf[offset..end]` that is compacted and grown in
    place, proved to be nothing more than the pure framing of the incoming byte stream. */
module MySqlReader {
  import opened Network
  import opened MySqlPackets
  import opened MySqlResponse

  const INITIAL_BUFFER := 64 * 1024
  const MAX_BUFFER := 2 * (4 + MAX_PAYLOAD)

  datatype Result<+T> = Ok(value: T) | Err(error: ReadError)

  datatype ResponseError = Reading(error: ReadError) | ShortPacket | Writing

  /** What the outcome of reading a response says about the phase reached. */
  predicate Explains(ph: Phase, err: Option<ResponseError>) {
    match err
    case None => ph == Done
    case Some(Reading(_)) => ph.Live()
    case Some(ShortPacket) => ph == TooShort
    case Some(Writing) => ph.Live()
  }

  lemma {:induction false} LiveAtEnd(ph: Phase, err: Option<ResponseError>)
    requires Explains(ph, err) && ph.Live() && err != Some(Writing)
    requires err.Some? && err.value.Reading? ==> err.value.error.EndOfStream?
    ensures err == Some(Reading(EndOfStream))
  {}

  /** A packet taken from the input whose write failed, and the part of it that went out. */
  datatype Spill = Spill(packet: seq<byte>, sent: seq<byte>)
  {
    function Before(rest: seq<byte>): seq<byte> { if packet == [] then rest else packet + rest }
    function Onto(whole: seq<byte>): seq<byte> { if sent == [] then whole else whole + sent }
    predicate Fits(err: Option<ResponseError>) {
      sent <= packet && (if packet == [] then sent == [] else IsPacket(packet) && err == Some(Writing))
    }
  }

  lemma {:induction false} WindowSplits(window: seq<byte>, stream: seq<byte>, n: nat)
    requires n <= |window|
    ensures (window + stream)[..n] == window[..n] && (window + stream)[n..] == window[n..] + stream
  {}

  lemma {:induction false} WindowCut(s: seq<byte>, from: nat, n: nat, end: nat)
    requires from + n <= end <= |s|
    ensures s[from..from + n] == s[from..end][..n] && s[from + n..end] == s[from..end][n..]
  {}

  lemma {:induction false} WindowFirst(window: seq<byte>, stream: seq<byte>)
    requires |window| >= 4
    ensures PayloadLength(window + stream) == PayloadLength(window) <= MAX_PAYLOAD
  {}

  class PacketReader {
    const conn: Conn
    var buf: array<byte>
    var offset: nat
    var end: nat

    ghost predicate Valid()
      reads this, buf
    {
      offset <= end <= buf.Length && INITIAL_BUFFER <= buf.Length <= MAX_BUFFER
    }

    /** The logical input: what is buffered, then what has yet to arrive. */
    ghost function Remaining(): seq<byte>
      reads this, buf, conn
      requires Valid()
    {
      buf[offset..end] + conn.Stream()
    }

    constructor (conn: Conn)
      ensures Valid() && fresh(buf) && this.conn == conn && Remaining() == conn.Stream()
    {
      this.conn := conn;
      buf := new byte[INITIAL_BUFFER];
      offset, end := 0, 0;
    }

    /** Moves the unread bytes to the front of the buffer. */
    method Compact()
      requires Valid()
      modifies this`offset, this`end, buf
      ensures Valid() && offset == 0 && end == old(end - offset)
      ensures buf[..end] == old(buf[offset..end])
    {
      var available := end - offset;
      if offset > 0 {
        forall i | 0 <= i < available { buf[i] := buf[offset + i]; }
        end := available;
        offset := 0;
      }
    }

    /** Replaces the buffer by one of twice the wanted size. */
    method Grow(n: nat)
      requires Valid() && offset == 0 && buf.Length < n <= 4 + MAX_PAYLOAD
      modifies this`buf
      ensures Valid() && fresh(buf) && buf.Length == 2 * n && buf[..end] == old(buf[..end])
    {
      var bigger := new byte[n * 2];
      forall i | 0 <= i < end { bigger[i] := buf[i]; }
      buf := bigger;
    }

    method EnsureBytes(n: nat) returns (err: Option<ReadError>)
      requires Valid() && n <= 4 + MAX_PAYLOAD
      modifies this, buf, conn
      ensures Valid() && (buf == old(buf) || fresh(buf))
      ensures Remaining() == old(Remaining())
      ensures err.None? ==> end - offset >= n
      ensures err == Some(EndOfStream) ==> |Remaining()| < n
      ensures old(conn.Quiet()) ==> conn.Quiet() && (err.Some? ==> err.value.EndOfStream?)
    {
      if end - offset >= n {
        return None;
      }
      Compact();
      if n > buf.Length {
        Grow(n);
      }
      err := Fill(n);
    }

    /** Reads until the first `n` bytes of the buffer are there. */
    method Fill(n: nat) returns (err: Option<ReadError>)
      requires Valid() && offset == 0 && n <= buf.Length
      modifies this`end, buf, conn
      ensures Valid() && Remaining() == old(Remaining())
      ensures err.None? ==> end >= n
      ensures err == Some(EndOfStream) ==> |Remaining()| < n
      ensures old(conn.Quiet()) ==> conn.Quiet() && (err.Some? ==> err.value.EndOfStream?)
    {
      ghost var whole := Remaining();
      while end < n
        invariant Valid() && Remaining() == whole
        invariant old(conn.Quiet()) ==> conn.Quiet()
        decreases conn.Weight()
      {
        ghost var had := buf[..end];
        var bytesRead, e := conn.Read(buf, end);
        if e.Some? {
          assert buf[offset..end] == had;
          return e;
        }
        Regroup(had, buf[end..end + bytesRead], conn.Stream());
        assert buf[..end + bytesRead] == had + buf[end..end + bytesRead];
        end := end + bytesRead;
      }
      return None;
    }

    /** Reads one packet. A failed call leaves the logical input as it was, so that a
        retry sees the same packet; the end of the stream is reported only when the input
        holds no complete packet. */
    method ReadPacket() returns (r: Result<seq<byte>>)
      requires Valid()
      modifies this, buf, conn
      ensures Valid() && (buf == old(buf) || fresh(buf))
      ensures r.Ok? ==> TakePacket(old(Remaining())) == Taken(r.value, Remaining())
      ensures r.Err? ==> Remaining() == old(Remaining())
      ensures r == Err(EndOfStream) ==> TakePacket(Remaining()).NoPacket?
      ensures old(conn.Quiet()) ==> conn.Quiet() && (r.Err? ==> r.error.EndOfStream?)
    {
      var length, err := PeekLength();
      if err.Some? {
        return Err(err.value);
      }
      var totalLen := 4 + length;
      err := EnsureBytes(totalLen);
      if err.Some? {
        return Err(err.value);
      }
      var packet := Advance(totalLen);
      return Ok(packet);
    }

    /** The payload length in the header of the next packet. */
    method PeekLength() returns (length: nat, err: Option<ReadError>)
      requires Valid()
      modifies this, buf, conn
      ensures Valid() && (buf == old(buf) || fresh(buf)) && Remaining() == old(Remaining()) && length <= MAX_PAYLOAD
      ensures err.None? ==> |Remaining()| >= 4 && length == PayloadLength(Remaining())
      ensures err == Some(EndOfStream) ==> |Remaining()| < 4
      ensures old(conn.Quiet()) ==> conn.Quiet() && (err.Some? ==> err.value.EndOfStream?)
    {
      length := 0;
      err := EnsureBytes(4);
      if err.Some? { return; }
      length := (buf[offset] as int) + 256 * (buf[offset + 1] as int) + 65536 * (buf[offset + 2] as int);
      WindowFirst(buf[offset..end], conn.Stream());
    }

    /** Takes the first `n` bytes of the window. */
    method Advance(n: nat) returns (packet: seq<byte>)
      requires Valid() && n <= end - offset
      modifies this`offset
      ensures Valid() && n <= |old(Remaining())|
      ensures packet == old(Remaining())[..n] && Remaining() == old(Remaining())[n..]
    {
      ghost var all, window := buf[..], buf[offset..end];
      packet := buf[offset..offset + n];
      assert window == all[offset..end] && packet == all[offset..offset + n];
      WindowCut(all, offset, n, end);
      WindowSplits(window, conn.Stream(), n);
      offset := offset + n;
      assert buf[offset..end] == all[offset..end];
    }

    /** Reads a command that may span several packets. On an error the full packets read so
        far are gone: `lost` says which they were. */
    method ReadMultiPacket() returns (r: Result<seq<byte>>, ghost lost: seq<seq<byte>>)
      requires Valid()
      modifies this, buf, conn
      ensures Valid() && (buf == old(buf) || fresh(buf))
      ensures r.Ok? ==> TakeCommand(old(Remaining())) == Taken(r.value, Remaining()) && lost == []
      ensures r.Err? ==> old(Remaining()) == Concat(lost) + Remaining()
      ensures r.Err? ==> forall p :: p in lost ==> IsPacket(p) && PayloadLength(p) == MAX_PAYLOAD
      ensures r == Err(EndOfStream) ==> TakeCommand(old(Remaining())).NoPacket?
      ensures old(conn.Quiet()) ==> conn.Quiet() && (r.Err? ==> r.error.EndOfStream?)
    {
      var result := [];
      lost := [];
      ghost var whole := Remaining();
      while true
        invariant Valid() && (buf == old(buf) || fresh(buf))
        invariant result == Concat(lost) && whole == result + Remaining()
        invariant forall p :: p in lost ==> IsPacket(p) && PayloadLength(p) == MAX_PAYLOAD
        invariant TakeCommand(whole) == Continued(result, TakeCommand(Remaining()))
        invariant old(conn.Quiet()) ==> conn.Quiet()
        decreases |Remaining()|
      {
        ghost var before := Remaining();
        var packet := ReadPacket();
        if packet.Err? {
          r := Err(packet.error);
          return;
        }
        CommandStep(result, before, packet.value, Remaining());
        result := result + packet.value;
        if PayloadLength(packet.value) < MAX_PAYLOAD {
          lost := [];
          r := Ok(result);
          return;
        }
        ConcatSnoc(lost, packet.value);
        lost := lost + [packet.value];
      }
    }

    /** Reads and drops a response that is always one packet. */
    method ReadSimpleResponse() returns (total: nat, err: Option<ReadError>)
      requires Valid()
      modifies this, buf, conn
      ensures Valid() && (buf == old(buf) || fresh(buf))
      ensures var t := TakePacket(old(Remaining()));
        if err.None? then t.Taken? && total == |t.packet| && Remaining() == t.rest
        else total == 0 && Remaining() == old(Remaining()) && (err.value.EndOfStream? ==> t.NoPacket?)
      ensures old(conn.Quiet()) ==> conn.Quiet() && (err.Some? ==> err.value.EndOfStream?)
    {
      var r := ReadPacket();
      if r.Err? {
        return 0, Some(r.error);
      }
      return |r.value|, None;
    }

    /** `ReadPacket` seen as one move of the response parser after `at`. */
    method Pull(ghost whole: seq<byte>, ghost at: Trail) returns (r: Result<seq<byte>>, ghost to: Trail)
      requires Valid() && at.Genuine() && at.Phase().Live() && whole == at.Bytes() + Remaining()
      modifies this, buf, conn
      ensures Valid() && (buf == old(buf) || fresh(buf)) && to.Genuine()
      ensures whole == to.Bytes() + Remaining()
      ensures r.Ok? ==> to == Past(at, r.value) && old(Remaining()) == r.value + Remaining() && |r.value| >= 4
      ensures r.Err? ==> to == at && Remaining() == old(Remaining())
      ensures r == Err(EndOfStream) ==> TakePacket(Remaining()).NoPacket?
      ensures old(conn.Quiet()) ==> conn.Quiet() && (r.Err? ==> r.error.EndOfStream?)
    {
      ghost var before := Remaining();
      r := ReadPacket();
      to := at;
      if r.Ok? {
        TakePacketSplits(before);
        Regroup(at.Bytes(), r.value, Remaining());
        to := Past(at, r.value);
      }
    }

    /** Reads the column definitions of a result set. */
    method SkipColumns(n: nat, ghost whole: seq<byte>, ghost at: Trail)
      returns (count: nat, err: Option<ReadError>, ghost to: Trail)
      requires Valid() && at.Phase() == AwaitColumns(n) && at.Genuine() && whole == at.Bytes() + Remaining()
      modifies this, buf, conn
      ensures Valid() && (buf == old(buf) || fresh(buf)) && |Remaining()| <= |old(Remaining())|
      ensures to.Genuine() && whole == to.Bytes() + Remaining() && |to.Bytes()| == |at.Bytes()| + count
      ensures if err.None? then to.Phase() == ColumnsEnd else to.Phase().Live()
      ensures err == Some(EndOfStream) ==> TakePacket(Remaining()).NoPacket?
      ensures old(conn.Quiet()) ==> conn.Quiet() && (err.Some? ==> err.value.EndOfStream?)
    {
      count, to := 0, at;
      var i := 0;
      while i < n
        invariant Valid() && (buf == old(buf) || fresh(buf)) && |Remaining()| <= |old(Remaining())|
        invariant i <= n && to.Phase() == AwaitColumns(n - i)
        invariant to.Genuine() && whole == to.Bytes() + Remaining() && |to.Bytes()| == |at.Bytes()| + count
        invariant old(conn.Quiet()) ==> conn.Quiet()
      {
        var r;
        r, to := Pull(whole, to);
        if r.Err? {
          return count, Some(r.error), to;
        }
        count := count + |r.value|;
        i := i + 1;
      }
      err := None;
    }

    /** Reads rows up to and including the packet that ends them. */
    method SkipRows(ghost whole: seq<byte>, ghost at: Trail)
      returns (count: nat, err: Option<ReadError>, moreResults: bool, ghost to: Trail)
      requires Valid() && at.Phase() == Rows && at.Genuine() && whole == at.Bytes() + Remaining()
      modifies this, buf, conn
      ensures Valid() && (buf == old(buf) || fresh(buf)) && |Remaining()| <= |old(Remaining())|
      ensures to.Genuine() && whole == to.Bytes() + Remaining() && |to.Bytes()| == |at.Bytes()| + count
      ensures if err.None? then to.Phase() == AfterPart(moreResults) else to.Phase().Live()
      ensures err == Some(EndOfStream) ==> TakePacket(Remaining()).NoPacket?
      ensures old(conn.Quiet()) ==> conn.Quiet() && (err.Some? ==> err.value.EndOfStream?)
    {
      count, to := 0, at;
      while true
        invariant Valid() && (buf == old(buf) || fresh(buf)) && |Remaining()| <= |old(Remaining())|
        invariant to.Phase() == Rows && to.Genuine() && whole == to.Bytes() + Remaining()
        invariant |to.Bytes()| == |at.Bytes()| + count
        invariant old(conn.Quiet()) ==> conn.Quiet()
        decreases |Remaining()|
      {
        var r;
        r, to := Pull(whole, to);
        if r.Err? {
          return count, Some(r.error), false, to;
        }
        count := count + |r.value|;
        if |r.value| >= 5 && r.value[4] == 0xFE && PayloadLength(r.value) < 9 {
          return count, None, MoreInEof(r.value), to;
        }
      }
    }

    /** Reads a result set from after its column count. */
    method SkipResultSet(columnCount: nat, ghost whole: seq<byte>, ghost at: Trail)
      returns (count: nat, err: Option<ReadError>, moreResults: bool, ghost to: Trail)
      requires Valid() && at.Phase() == AwaitColumns(columnCount) && at.Genuine() && whole == at.Bytes() + Remaining()
      modifies this, buf, conn
      ensures Valid() && (buf == old(buf) || fresh(buf)) && |Remaining()| <= |old(Remaining())|
      ensures to.Genuine() && whole == to.Bytes() + Remaining() && |to.Bytes()| == |at.Bytes()| + count
      ensures if err.None? then to.Phase() == AfterPart(moreResults) else to.Phase().Live()
      ensures err == Some(EndOfStream) ==> TakePacket(Remaining()).NoPacket?
      ensures old(conn.Quiet()) ==> conn.Quiet() && (err.Some? ==> err.value.EndOfStream?)
    {
      moreResults := false;
      count, err, to := SkipColumns(columnCount, whole, at);
      if err.Some? { return; }
      var r;
      r, to := Pull(whole, to);
      if r.Err? {
        return count, Some(r.error), false, to;
      }
      count := count + |r.value|;
      if |r.value| >= 5 && r.value[4] == 0x00 {
        return count, None, MoreInOk(r.value), to;
      }
      var rowBytes;
      rowBytes, err, moreResults, to := SkipRows(whole, to);
      count := count + rowBytes;
    }

    /** Reads and drops one part of a response: up to where more results may follow. */
    method SkipPart(ghost whole: seq<byte>, ghost at: Trail)
      returns (count: nat, err: Option<ResponseError>, moreResults: bool, ghost to: Trail)
      requires Valid() && at.Phase() == Start && at.Genuine() && whole == at.Bytes() + Remaining()
      modifies this, buf, conn
      ensures Valid() && (buf == old(buf) || fresh(buf))
      ensures to.Genuine() && whole == to.Bytes() + Remaining() && |to.Bytes()| == |at.Bytes()| + count
      ensures if err.None? then to.Phase() == AfterPart(moreResults) && |Remaining()| < |old(Remaining())|
              else Explains(to.Phase(), err) && err != Some(Writing)
      ensures err == Some(Reading(EndOfStream)) ==> TakePacket(Remaining()).NoPacket?
      ensures old(conn.Quiet()) ==> conn.Quiet() && (err.Some? && err.value.Reading? ==> err.value.error.EndOfStream?)
    {
      var r;
      r, to := Pull(whole, at);
      if r.Err? {
        return 0, Some(Reading(r.error)), false, to;
      }
      var packet := r.value;
      count, err, moreResults := |packet|, None, false;
      if |packet| < 5 {
        err := Some(ShortPacket);
        return;
      }
      match packet[4] {
        case 0x00 =>
          moreResults := MoreInOk(packet);
        case 0xFF =>
        case 0xFB =>
        case 0xFE =>
          moreResults := MoreInEof(packet);
        case _ =>
          var size, readErr;
          size, readErr, moreResults, to := SkipResultSet(LenencInt(packet[4..]), whole, to);
          count := count + size;
          if readErr.Some? { err := Some(Reading(readErr.value)); }
      }
    }

    /** Reads one whole response and drops it. The count is always that of the packets
        fully handled; the outcome is the one the phase machine gives for the input. */
    method ReadFullResponse() returns (total: nat, err: Option<ResponseError>, ghost at: Trail)
      requires Valid()
      modifies this, buf, conn
      ensures Valid() && (buf == old(buf) || fresh(buf))
      ensures at.Genuine() && old(Remaining()) == at.Bytes() + Remaining()
      ensures total == |at.Bytes()| && Explains(at.Phase(), err) && err != Some(Writing)
      ensures err == Some(Reading(EndOfStream)) ==> TakePacket(Remaining()).NoPacket?
      ensures old(conn.Quiet()) ==> conn.Quiet() && (at.Phase().Live() ==> err == Some(Reading(EndOfStream)))
    {
      ghost var whole := Remaining();
      total, at := 0, Nothing;
      while true
        invariant Valid() && (buf == old(buf) || fresh(buf))
        invariant at.Phase() == Start && total == |at.Bytes()| && at.Genuine() && whole == at.Bytes() + Remaining()
        invariant old(conn.Quiet()) ==> conn.Quiet()
        decreases |Remaining()|
      {
        var size, moreResults;
        size, err, moreResults, at := SkipPart(whole, at);
        total := total + size;
        if err.Some? || !moreResults { return; }
      }
    }

    /** Reads one packet and passes it on. */
    method Relay(dest: Sink, ghost whole: seq<byte>, ghost at: Trail, ghost base: seq<byte>)
      returns (packet: seq<byte>, count: nat, err: Option<ResponseError>, ghost to: Trail, ghost spill: Spill)
      requires Valid() && at.Phase().Live() && at.Genuine() && whole == at.Bytes() + Remaining()
      requires dest.written == base + at.Bytes()
      modifies this, buf, conn, dest
      ensures Valid() && (buf == old(buf) || fresh(buf)) && |Remaining()| <= |old(Remaining())|
      ensures to.Genuine() && whole == to.Bytes() + spill.Before(Remaining())
      ensures |to.Bytes()| == |at.Bytes()| + count && spill.Fits(err)
      ensures dest.written == spill.Onto(base + to.Bytes())
      ensures err.None? ==> to == Past(at, packet) && count == |packet| && |Remaining()| < |old(Remaining())|
      ensures err.Some? ==> to == at && count == 0 && !err.value.ShortPacket?
      ensures err == Some(Reading(EndOfStream)) ==> TakePacket(Remaining()).NoPacket?
      ensures old(conn.Quiet()) ==> conn.Quiet() && (err.Some? && err.value.Reading? ==> err.value.error.EndOfStream?)
      ensures old(dest.Open()) ==> dest.Open() && err != Some(Writing)
    {
      var r;
      r, to := Pull(whole, at);
      count, spill := 0, Spill([], []);
      if r.Err? {
        packet, err := [], Some(Reading(r.error));
        return;
      }
      packet := r.value;
      var n, ok := dest.Write(packet);
      if !ok {
        to, spill := at, Spill(packet, packet[..n]);
        return packet, 0, Some(Writing), to, spill;
      }
      Regroup(base, at.Bytes(), packet);
      return packet, |packet|, None, to, spill;
    }

    method RelayColumns(dest: Sink, n: nat, ghost whole: seq<byte>, ghost at: Trail, ghost base: seq<byte>)
      returns (count: nat, err: Option<ResponseError>, ghost to: Trail, ghost spill: Spill)
      requires Valid() && at.Phase() == AwaitColumns(n) && at.Genuine() && whole == at.Bytes() + Remaining()
      requires dest.written == base + at.Bytes()
      modifies this, buf, conn, dest
      ensures Valid() && (buf == old(buf) || fresh(buf)) && |Remaining()| <= |old(Remaining())|
      ensures to.Genuine() && whole == to.Bytes() + spill.Before(Remaining())
      ensures |to.Bytes()| == |at.Bytes()| + count && spill.Fits(err)
      ensures dest.written == spill.Onto(base + to.Bytes())
      ensures if err.None? then to.Phase() == ColumnsEnd else to.Phase().Live() && !err.value.ShortPacket?
      ensures err == Some(Reading(EndOfStream)) ==> TakePacket(Remaining()).NoPacket?
      ensures old(conn.Quiet()) ==> conn.Quiet() && (err.Some? && err.value.Reading? ==> err.value.error.EndOfStream?)
      ensures old(dest.Open()) ==> dest.Open() && err != Some(Writing)
    {
      count, err, to, spill := 0, None, at, Spill([], []);
      var i := 0;
      while i < n
        invariant Valid() && (buf == old(buf) || fresh(buf)) && |Remaining()| <= |old(Remaining())|
        invariant to.Genuine() && whole == to.Bytes() + Remaining() && |to.Bytes()| == |at.Bytes()| + count
        invariant dest.written == base + to.Bytes()
        invariant old(conn.Quiet()) ==> conn.Quiet()
        invariant old(dest.Open()) ==> dest.Open()
        invariant i <= n && to.Phase() == AwaitColumns(n - i)
        invariant err.None? && spill == Spill([], [])
      {
        var packet, size;
        packet, size, err, to, spill := Relay(dest, whole, to, base);
        if err.Some? { return; }
        count := count + size;
        i := i + 1;
      }
    }

    method RelayRows(dest: Sink, ghost whole: seq<byte>, ghost at: Trail, ghost base: seq<byte>)
      returns (count: nat, err: Option<ResponseError>, moreResults: bool, ghost to: Trail, ghost spill: Spill)
      requires Valid() && at.Phase() == Rows && at.Genuine() && whole == at.Bytes() + Remaining()
      requires dest.written == base + at.Bytes()
      modifies this, buf, conn, dest
      ensures Valid() && (buf == old(buf) || fresh(buf)) && |Remaining()| <= |old(Remaining())|
      ensures to.Genuine() && whole == to.Bytes() + spill.Before(Remaining())
      ensures |to.Bytes()| == |at.Bytes()| + count && spill.Fits(err)
      ensures dest.written == spill.Onto(base + to.Bytes())
      ensures if err.None? then to.Phase() == AfterPart(moreResults) else to.Phase().Live() && !err.value.ShortPacket?
      ensures err == Some(Reading(EndOfStream)) ==> TakePacket(Remaining()).NoPacket?
      ensures old(conn.Quiet()) ==> conn.Quiet() && (err.Some? && err.value.Reading? ==> err.value.error.EndOfStream?)
      ensures old(dest.Open()) ==> dest.Open() && err != Some(Writing)
    {
      count, moreResults, to := 0, false, at;
      while true
        invariant Valid() && (buf == old(buf) || fresh(buf)) && |Remaining()| <= |old(Remaining())|
        invariant to.Genuine() && whole == to.Bytes() + Remaining() && |to.Bytes()| == |at.Bytes()| + count
        invariant dest.written == base + to.Bytes()
        invariant old(conn.Quiet()) ==> conn.Quiet()
        invariant old(dest.Open()) ==> dest.Open()
        invariant to.Phase() == Rows
        decreases |Remaining()|
      {
        var packet, size;
        packet, size, err, to, spill := Relay(dest, whole, to, base);
        if err.Some? { return; }
        count := count + size;
        if |packet| >= 5 && packet[4] == 0xFE && PayloadLength(packet) < 9 {
          moreResults := MoreInEof(packet);
          return;
        }
      }
    }

    method RelayResultSet(dest: Sink, columnCount: nat, ghost whole: seq<byte>, ghost at: Trail, ghost base: seq<byte>)
      returns (count: nat, err: Option<ResponseError>, moreResults: bool, ghost to: Trail, ghost spill: Spill)
      requires Valid() && at.Phase() == AwaitColumns(columnCount) && at.Genuine() && whole == at.Bytes() + Remaining()
      requires dest.written == base + at.Bytes()
      modifies this, buf, conn, dest
      ensures Valid() && (buf == old(buf) || fresh(buf)) && |Remaining()| <= |old(Remaining())|
      ensures to.Genuine() && whole == to.Bytes() + spill.Before(Remaining())
      ensures |to.Bytes()| == |at.Bytes()| + count && spill.Fits(err)
      ensures dest.written == spill.Onto(base + to.Bytes())
      ensures if err.None? then to.Phase() == AfterPart(moreResults) else to.Phase().Live() && !err.value.ShortPacket?
      ensures err == Some(Reading(EndOfStream)) ==> TakePacket(Remaining()).NoPacket?
      ensures old(conn.Quiet()) ==> conn.Quiet() && (err.Some? && err.value.Reading? ==> err.value.error.EndOfStream?)
      ensures old(dest.Open()) ==> dest.Open() && err != Some(Writing)
    {
      moreResults := false;
      count, err, to, spill := RelayColumns(dest, columnCount, whole, at, base);
      if err.Some? { return; }
      var packet, size;
      packet, size, err, to, spill := Relay(dest, whole, to, base);
      if err.Some? { return; }
      count := count + size;
      if |packet| >= 5 && packet[4] == 0x00 {
        moreResults := MoreInOk(packet);
        return;
      }
      size, err, moreResults, to, spill := RelayRows(dest, whole, to, base);
      count := count + size;
    }

    /** Reads and passes on one part of a response: up to where more results may follow. */
    method RelayPart(dest: Sink, ghost whole: seq<byte>, ghost at: Trail, ghost base: seq<byte>)
      returns (count: nat, err: Option<ResponseError>, moreResults: bool, ghost to: Trail, ghost spill: Spill)
      requires Valid() && at.Phase() == Start && at.Genuine() && whole == at.Bytes() + Remaining()
      requires dest.written == base + at.Bytes()
      modifies this, buf, conn, dest
      ensures Valid() && (buf == old(buf) || fresh(buf))
      ensures to.Genuine() && whole == to.Bytes() + spill.Before(Remaining())
      ensures |to.Bytes()| == |at.Bytes()| + count && spill.Fits(err)
      ensures dest.written == spill.Onto(base + to.Bytes())
      ensures err.None? ==> whole == to.Bytes() + Remaining() && dest.written == base + to.Bytes()
      ensures if err.None? then to.Phase() == AfterPart(moreResults) && |Remaining()| < |old(Remaining())|
              else Explains(to.Phase(), err)
      ensures err == Some(Reading(EndOfStream)) ==> TakePacket(Remaining()).NoPacket?
      ensures old(conn.Quiet()) ==> conn.Quiet() && (err.Some? && err.value.Reading? ==> err.value.error.EndOfStream?)
      ensures old(dest.Open()) ==> dest.Open() && err != Some(Writing)
    {
      var packet;
      moreResults := false;
      packet, count, err, to, spill := Relay(dest, whole, at, base);
      if err.Some? { return; }
      if |packet| < 5 {
        err := Some(ShortPacket);
        return;
      }
      match packet[4] {
        case 0x00 =>
          moreResults := MoreInOk(packet);
        case 0xFF =>
        case 0xFB =>
        case 0xFE =>
          moreResults := MoreInEof(packet);
        case _ =>
          var size;
          size, err, moreResults, to, spill := RelayResultSet(dest, LenencInt(packet[4..]), whole, to, base);
          count := count + size;
      }
    }

    /** Reads one whole response and passes each packet on as it comes. Whatever happens, the
        count is that of the packets passed on whole and the destination holds exactly those,
        followed by part of one packet at most. */
    method ReadAndForwardResponse(dest: Sink)
      returns (total: nat, err: Option<ResponseError>, ghost at: Trail, ghost spill: Spill)
      requires Valid()
      modifies this, buf, conn, dest
      ensures Valid() && (buf == old(buf) || fresh(buf))
      ensures at.Genuine() && old(Remaining()) == at.Bytes() + spill.Before(Remaining()) && spill.Fits(err)
      ensures total == |at.Bytes()| && Explains(at.Phase(), err)
      ensures dest.written == spill.Onto(old(dest.written) + at.Bytes())
      ensures err == Some(Reading(EndOfStream)) ==> TakePacket(Remaining()).NoPacket?
      ensures old(conn.Quiet() && dest.Open()) ==>
        conn.Quiet() && dest.Open() && (at.Phase().Live() ==> err == Some(Reading(EndOfStream)))
    {
      ghost var whole, base, quiet := Remaining(), dest.written, conn.Quiet() && dest.Open();
      total, at := 0, Nothing;
      assert [] + whole == whole && base + [] == base;
      while true
        invariant Valid() && (buf == old(buf) || fresh(buf))
        invariant at.Phase() == Start && total == |at.Bytes()| && at.Genuine() && whole == at.Bytes() + Remaining()
        invariant dest.written == base + at.Bytes()
        invariant quiet ==> conn.Quiet() && dest.Open()
        decreases |Remaining()|
      {
        var size, moreResults;
        size, err, moreResults, at, spill := RelayPart(dest, whole, at, base);
        total := total + size;
        if err.Some? || !moreResults {
          if quiet && at.Phase().Live() { LiveAtEnd(at.Phase(), err); }
          return;
        }
      }
    }

    /** Passes on a response that is always one packet. */
    method ReadAndForwardSimpleResponse(dest: Sink) returns (total: nat, err: Option<ResponseError>, ghost spill: Spill)
      requires Valid()
      modifies this, buf, conn, dest
      ensures Valid() && (buf == old(buf) || fresh(buf)) && spill.Fits(err) && err != Some(ShortPacket)
      ensures err.None? ==>
        var t := TakePacket(old(Remaining()));
        t.Taken? && total == |t.packet| && Remaining() == t.rest && dest.written == old(dest.written) + t.packet
      ensures err.Some? ==>
        total == 0 && dest.written == spill.Onto(old(dest.written)) && old(Remaining()) == spill.Before(Remaining())
      ensures err == Some(Reading(EndOfStream)) ==> TakePacket(Remaining()).NoPacket?
      ensures old(conn.Quiet() && dest.Open()) ==>
        conn.Quiet() && dest.Open() && (err.Some? ==> err == Some(Reading(EndOfStream)))
    {
      spill := Spill([], []);
      ghost var before := Remaining();
      var r := ReadPacket();
      if r.Err? {
        return 0, Some(Reading(r.error)), spill;
      }
      TakePacketSplits(before);
      var n, ok := dest.Write(r.value);
      if !ok {
        return 0, Some(Writing), Spill(r.value, r.value[..n]);
      }
      return |r.value|, None, spill;
    }
  }

  /** Exact framing of the running reader: whatever the chunks in which a legal response and what
      follows it arrive, exactly the response is consumed and its length returned. */
  method ReadLegalResponse(reader: PacketReader, ghost r: Response, ghost tail: seq<byte>)
    returns (total: nat, err: Option<ResponseError>)
    requires reader.Valid() && reader.conn.Quiet() && r.Legal() && reader.Remaining() == r.Bytes() + tail
    modifies reader, reader.buf, reader.conn
    ensures reader.Valid() && err.None? && total == |r.Bytes()| && reader.Remaining() == tail
  {
    ExactFraming(r, tail);
    ghost var at;
    total, err, at := reader.ReadFullResponse();
    TrailEnds(at, reader.Remaining());
  }

  /** And of the forwarding one: the destination is sent exactly the response. */
  method ForwardLegalResponse(reader: PacketReader, dest: Sink, ghost r: Response, ghost tail: seq<byte>)
    returns (total: nat, err: Option<ResponseError>)
    requires reader.Valid() && reader.conn.Quiet() && dest.Open() && r.Legal() && reader.Remaining() == r.Bytes() + tail
    modifies reader, reader.buf, reader.conn, dest
    ensures reader.Valid() && err.None? && total == |r.Bytes()| && reader.Remaining() == tail
    ensures dest.written == old(dest.written) + r.Bytes()
  {
    ExactFraming(r, tail);
    ghost var at, spill;
    total, err, at, spill := reader.ReadAndForwardResponse(dest);
    TrailEnds(at, spill.Before(reader.Remaining()));
  }
}
