/** The two ends of a TCP connection as the proxy sees them: a `Conn` that hands out
    bytes in whatever pieces they arrive, and a `Sink` that takes bytes and may refuse. */
module Network {

  type byte = x: int | 0 <= x < 256

  datatype Option<+T> = None | Some(value: T)

  datatype ReadError = EndOfStream | Fault(code: int)

  /** What one read call can find: bytes, or an error that carries no bytes. */
  datatype Arrival = Data(bytes: seq<byte>) | Broken(code: int)

  function Payload(arrivals: seq<Arrival>): seq<byte> {
    if arrivals == [] then []
    else (if arrivals[0].Data? then arrivals[0].bytes else []) + Payload(arrivals[1..])
  }

  lemma {:induction false} PayloadCut(bytes: seq<byte>, tail: seq<Arrival>, n: nat)
    requires n <= |bytes|
    ensures Payload([Data(bytes)] + tail) == bytes[..n] + Payload([Data(bytes[n..])] + tail)
    ensures n == |bytes| ==> Payload([Data(bytes)] + tail) == bytes[..n] + Payload(tail)
    ensures Unbroken([Data(bytes[n..])] + tail) == Unbroken(tail) == Unbroken([Data(bytes)] + tail)
  {
    assert ([Data(bytes)] + tail)[1..] == tail && ([Data(bytes[n..])] + tail)[1..] == tail;
    assert bytes[..n] + bytes[n..] == bytes;
    Regroup(bytes[..n], bytes[n..], Payload(tail));
  }

  predicate Unbroken(arrivals: seq<Arrival>) {
    arrivals == [] || (arrivals[0].Data? && Unbroken(arrivals[1..]))
  }

  predicate Unrefused(fates: seq<Option<nat>>) {
    fates == [] || (fates[0].None? && Unrefused(fates[1..]))
  }

  function Concat<T>(parts: seq<seq<T>>): seq<T> {
    if parts == [] then [] else parts[0] + Concat(parts[1..])
  }

  lemma {:induction false} Regroup<T>(a: seq<T>, b: seq<T>, c: seq<T>)
    ensures a + (b + c) == (a + b) + c
  {}

  /** Those of the first `n` elements that are to be kept. */
  function Pick<T>(xs: seq<T>, keep: seq<bool>, n: nat): seq<T>
    requires n <= |xs| && n <= |keep|
  {
    if n == 0 then [] else Pick(xs, keep, n - 1) + if keep[n - 1] then [xs[n - 1]] else []
  }

  lemma {:induction false} PickSame<T>(a: seq<T>, inA: seq<bool>, b: seq<T>, inB: seq<bool>, n: nat)
    requires n <= |a| && n <= |inA| && n <= |b| && n <= |inB|
    requires forall i :: 0 <= i < n ==> a[i] == b[i] && inA[i] == inB[i]
    ensures Pick(a, inA, n) == Pick(b, inB, n)
  {
    if n > 0 { PickSame(a, inA, b, inB, n - 1); }
  }

  lemma {:induction false} PickMapped<A, B>(f: A -> B, a: seq<A>, b: seq<B>, keep: seq<bool>, n: nat)
    requires n <= |a| && n <= |b| && n <= |keep| && forall i :: 0 <= i < n ==> b[i] == f(a[i])
    ensures var x, y := Pick(a, keep, n), Pick(b, keep, n);
      |x| == |y| && forall i :: 0 <= i < |x| ==> y[i] == f(x[i])
  {
    if n > 0 { PickMapped(f, a, b, keep, n - 1); }
  }

  lemma {:induction false} ConcatAppend<T>(a: seq<seq<T>>, b: seq<seq<T>>)
    ensures Concat(a + b) == Concat(a) + Concat(b)
  {
    if a == [] {
      assert a + b == b;
    } else {
      ConcatAppend(a[1..], b);
      assert (a + b)[1..] == a[1..] + b;
      Regroup(a[0], Concat(a[1..]), Concat(b));
    }
  }

  lemma {:induction false} ConcatSnoc<T>(a: seq<seq<T>>, x: seq<T>)
    ensures Concat(a + [x]) == Concat(a) + x
  {
    ConcatAppend(a, [x]);
    ConcatOne(x);
  }

  lemma {:induction false} ConcatOne<T>(x: seq<T>)
    ensures Concat([x]) == x
  {
    assert Concat([x]) == x + Concat([x][1..]) == x;
  }

  class Conn {
    /** Everything still to arrive, cut into pieces in an arbitrary way. */
    var arrivals: seq<Arrival>

    constructor (arrivals: seq<Arrival>)
      ensures this.arrivals == arrivals
    {
      this.arrivals := arrivals;
    }

    ghost function Stream(): seq<byte> reads this { Payload(arrivals) }

    /** No error other than the end of the stream will be seen. */
    ghost predicate Quiet() reads this { Unbroken(arrivals) }

    ghost function Weight(): nat reads this { |arrivals| + |Stream()| }

    /** Copies `bytes` into the buffer from `from` on. */
    method Deliver(buf: array<byte>, from: nat, bytes: seq<byte>)
      requires from + |bytes| <= buf.Length
      modifies buf
      ensures buf[..from] == old(buf[..from]) && buf[from..from + |bytes|] == bytes
    {
      forall i | 0 <= i < |bytes| { buf[from + i] := bytes[i]; }
    }

    /** One read into `buf[from..]`: fills at most the free room. */
    method Read(buf: array<byte>, from: nat) returns (n: nat, err: Option<ReadError>)
      requires from <= buf.Length
      modifies this, buf
      ensures from + n <= buf.Length && buf[..from] == old(buf[..from])
      ensures err.None? ==> old(Stream()) == buf[from..from + n] + Stream()
      ensures err.None? && from < buf.Length ==> Weight() < old(Weight())
      ensures err.Some? ==> n == 0 && Stream() == old(Stream()) && Weight() <= old(Weight())
      ensures err == Some(EndOfStream) ==> Stream() == []
      ensures old(Quiet()) ==> Quiet() && (err.Some? ==> err.value.EndOfStream?)
    {
      if arrivals == [] {
        return 0, Some(EndOfStream);
      }
      var head, tail := arrivals[0], arrivals[1..];
      if head.Broken? {
        arrivals := tail;
        return 0, Some(Fault(head.code));
      }
      var room := buf.Length - from;
      var bytes := head.bytes;
      n, err := if |bytes| <= room then |bytes| else room, None;
      Deliver(buf, from, bytes[..n]);
      PayloadCut(bytes, tail, n);
      assert arrivals == [Data(bytes)] + tail;
      arrivals := if n == |bytes| then tail else [Data(bytes[n..])] + tail;
    }
  }

  class Sink {
    var written: seq<byte>
    /** The fate of coming writes: `Some(k)` fails after taking at most `k` bytes. */
    var fates: seq<Option<nat>>
    /** How many writes have failed. */
    var refusals: nat

    constructor (fates: seq<Option<nat>>)
      ensures written == [] && this.fates == fates && refusals == 0
    {
      written, this.fates, refusals := [], fates, 0;
    }

    ghost predicate Open() reads this { Unrefused(fates) }

    method Write(p: seq<byte>) returns (n: nat, ok: bool)
      modifies this
      ensures n <= |p| && written == old(written) + p[..n]
      ensures ok ==> n == |p|
      ensures refusals == old(refusals) + if ok then 0 else 1
      ensures old(Open()) ==> ok && Open()
    {
      if fates != [] && fates[0].Some? {
        n := if fates[0].value < |p| then fates[0].value else |p|;
        ok, refusals := false, refusals + 1;
      } else {
        n, ok := |p|, true;
      }
      if fates != [] { fates := fates[1..]; }
      written := written + p[..n];
    }
  }
}
