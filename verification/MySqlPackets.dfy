/** Pure framing of the MySQL protocol: packets, length-encoded integers, status flags. */
module MySqlPackets {
  import opened Network

  const MAX_PAYLOAD := 0xFFFFFF
  const MORE_RESULTS := 0x0008

  function PayloadLength(p: seq<byte>): nat
    requires |p| >= 3
  {
    (p[0] as int) + 256 * (p[1] as int) + 65536 * (p[2] as int)
  }

  predicate IsPacket(p: seq<byte>) { |p| >= 4 && |p| == 4 + PayloadLength(p) }

  datatype Taken = NoPacket | Taken(packet: seq<byte>, rest: seq<byte>)

  /** The first complete packet of a byte stream. */
  function TakePacket(s: seq<byte>): Taken {
    if |s| < 4 || |s| < 4 + PayloadLength(s) then NoPacket
    else Taken(s[..4 + PayloadLength(s)], s[4 + PayloadLength(s)..])
  }

  /** A command: packets up to and including the first that is not full. */
  function TakeCommand(s: seq<byte>): Taken
    decreases |s|
  {
    var t := TakePacket(s);
    if t.NoPacket? || PayloadLength(t.packet) < MAX_PAYLOAD then t
    else Continued(t.packet, TakeCommand(t.rest))
  }

  /** `t` with `prefix` put before its packet. */
  function Continued(prefix: seq<byte>, t: Taken): Taken {
    if t.NoPacket? then t else Taken(prefix + t.packet, t.rest)
  }

  /** One more packet `p` read after the bytes `acc` of a command. */
  lemma {:induction false} CommandStep(acc: seq<byte>, s: seq<byte>, p: seq<byte>, rest: seq<byte>)
    requires TakePacket(s) == Taken(p, rest)
    ensures IsPacket(p) && s == p + rest && |rest| < |s|
    ensures acc + s == (acc + p) + rest
    ensures Continued(acc, TakeCommand(s)) ==
            if PayloadLength(p) < MAX_PAYLOAD then Taken(acc + p, rest) else Continued(acc + p, TakeCommand(rest))
  {
    TakePacketSplits(s);
    Regroup(acc, p, rest);
    var t := TakeCommand(rest);
    if t.Taken? { Regroup(acc, p, t.packet); }
  }

  lemma {:induction false} TakePacketSplits(s: seq<byte>)
    ensures var t := TakePacket(s); t.Taken? ==> s == t.packet + t.rest && IsPacket(t.packet) && |t.rest| < |s|
  {}

  lemma {:induction false} TakePacketOf(p: seq<byte>, tail: seq<byte>)
    requires IsPacket(p)
    ensures TakePacket(p + tail) == Taken(p, tail)
  {
    assert (p + tail)[..|p|] == p && (p + tail)[|p|..] == tail;
  }
}
