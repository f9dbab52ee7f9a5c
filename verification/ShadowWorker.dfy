/** The shadow worker as an object: its fields, updated in place by the stretches of Send,
    Close and the worker goroutine that run without interference. Each stretch is one action of
    `ShadowLifecycle`, so an object is always in a state that some run reaches, and what is
    proved of all runs there holds of it. */
module ShadowWorker {
  import Network
  import opened ShadowLifecycle

  ghost predicate Reachable(s: State) {
    exists run :: Runs(Initial(s.kind, s.capacity), run) && After(Initial(s.kind, s.capacity), run) == s
  }

  lemma {:induction false} ReachableStart(s: State, run: seq<Action>)
    requires run == [] && s == Initial(s.kind, s.capacity)
    ensures Reachable(s)
  {
    assert Runs(Initial(s.kind, s.capacity), run);
  }

  lemma {:induction false} ReachableStep(s: State, a: Action)
    requires Reachable(s) && Enabled(s, a)
    ensures Reachable(Apply(s, a))
  {
    var start := Initial(s.kind, s.capacity);
    var run :| Runs(start, run) && After(start, run) == s;
    RunsOne(s, a);
    RunsAppend(start, run, [a]);
    SameMakeStep(s, a);
    assert Runs(start, run + [a]);
  }

  lemma {:induction false} SameMakeStep(s: State, a: Action)
    requires Enabled(s, a)
    ensures Apply(s, a).kind == s.kind && Apply(s, a).capacity == s.capacity
  {}

  lemma {:induction false} ReachableInv(s: State)
    requires Reachable(s)
    ensures Inv(s)
  {
    var start := Initial(s.kind, s.capacity);
    var run :| Runs(start, run) && After(start, run) == s;
    InitialInv(s.kind, s.capacity);
    InvAlways(start, run);
  }

  /** What the runs promise each stretch: the channel it is about to close is open, and the
      worker, unless gone, finds its connection open when it uses it. */
  lemma {:induction false} ChannelsOpen(s: State)
    requires Reachable(s)
    ensures s.sig.latched > 0 ==> s.sig.drain == 0
    ensures s.sig.waiting > 0 ==> s.sig.force == 0
    ensures s.worker.Leaving? ==> s.sig.done == 0
    ensures s.worker.Busy() ==> !s.link.connClosed
  {
    ReachableInv(s);
  }

  /** Before the first Close nothing has been signalled and the worker is in its main loop. */
  lemma {:induction false} OpenMeansRunning(s: State)
    requires Reachable(s)
    ensures !s.sig.closed ==> s.sig.drain == 0 && s.sig.force == 0 && s.sig.done == 0
    ensures !s.sig.closed ==> !s.worker.Left() && !s.worker.InDrain()
    ensures !s.sig.closed && s.kind.MySql? ==> !s.link.connClosed
  {
    ReachableInv(s);
  }

  /** A hand-over finds an empty queue and a worker that nothing has told to stop. */
  lemma {:induction false} HandOverFinds(s: State, r: Request)
    requires Reachable(s) && CanSend(s, HandOver(r))
    ensures s.track.queue == [] && s.sig.force == 0 && s.sig.done == 0
    ensures s.kind.MySql? ==> !s.link.connClosed
  {
    ReachableInv(s);
  }

  lemma {:induction false} DeadIsClosed(s: State)
    requires Reachable(s)
    ensures s.kind.Pg? && s.link.dead ==> s.link.connClosed
    ensures s.kind.MySql? ==> !s.link.dead
  {
    ReachableInv(s);
  }

  /** How the connection behaves for one request: the write, the messages before the last one
      of the response, and whether that one arrives. */
  datatype Io = Io(writeOk: bool, messages: nat, readOk: bool) {
    /** The write fails, or the read of a response that is due. */
    predicate Fails(r: Request) { !writeOk || (r.answered && !readOk) }
  }

  class Worker {
    const kind: Kind
    const capacity: nat
    // the flag under the mutex, and the atomic latch
    var closed: bool
    var dead: bool
    // the request channel, and how often each signal channel has been closed
    var queue: seq<Request>
    var drainCh: nat
    var closeCh: nat
    var doneCh: nat
    var connClosed: bool
    // where every goroutine stands and what has happened so far
    ghost var state: State

    ghost predicate Valid()
      reads this
    {
      && Reachable(state) && state.kind == kind && state.capacity == capacity && state.track.queue == queue
      && state.sig.closed == closed && state.sig.drain == drainCh
      && state.sig.force == closeCh && state.sig.done == doneCh
      && state.link.dead == dead && state.link.connClosed == connClosed
    }

    constructor (kind: Kind, capacity: nat)
      ensures Valid() && state == Initial(kind, capacity)
    {
      this.kind, this.capacity := kind, capacity;
      closed, dead, queue, drainCh, closeCh, doneCh, connClosed := false, false, [], 0, 0, 0, false;
      state := Initial(kind, capacity);
      new;
      ReachableStart(state, []);
    }

    // -------------------------------------------------------------- Send

    /** The dead check of the PostgreSQL worker; the MySQL worker has none. A request is dropped
        here only if the connection has been closed for good. */
    method SendStart(r: Request) returns (drop: bool)
      requires Valid()
      modifies this`state
      ensures Valid() && state == Send(old(state), Start(r)) && (drop <==> kind.Pg? && dead)
      ensures if drop then connClosed && state.desk.entered == old(state.desk.entered) else r in state.desk.entered
    {
      DeadIsClosed(state);
      drop := kind.Pg? && dead;
      ReachableStep(state, BySender(Start(r)));
      state := Send(state, Start(r));
    }

    /** The closed check: a request that passes it found a worker that had not been told to stop. */
    method SendCheck(r: Request) returns (open: bool)
      requires Valid() && r in state.desk.entered
      modifies this`state
      ensures Valid() && state == Send(old(state), CheckClosed(r)) && open == !closed
      ensures open ==> r in state.desk.passed && drainCh == 0 && closeCh == 0 && doneCh == 0 && !state.worker.Left()
    {
      OpenMeansRunning(state);
      open := !closed;
      ReachableStep(state, BySender(CheckClosed(r)));
      state := Send(state, CheckClosed(r));
    }

    /** The non-blocking channel send. */
    method SendPush(r: Request) returns (ok: bool)
      requires Valid() && r in state.desk.passed
      modifies this`state, this`queue
      ensures Valid() && state == Send(old(state), Push(r))
      ensures ok == (|old(queue)| < capacity) && queue == (if ok then old(queue) + [r] else old(queue))
    {
      ok := |queue| < capacity;
      if ok { queue := queue + [r]; }
      ReachableStep(state, BySender(Push(r)));
      state := Send(state, Push(r));
    }

    /** The same send on an unbuffered channel that the worker waits at: it holds the request at
        once, and nothing has told it to stop. */
    method SendHandOver(r: Request)
      requires Valid() && r in state.desk.passed && capacity == 0 && state.worker.Selecting? && drainCh == 0
      modifies this`state
      ensures Valid() && state == Send(old(state), HandOver(r)) && state.worker == Holding(r, false)
      ensures queue == [] && closeCh == 0 && doneCh == 0 && (kind.MySql? ==> !connClosed)
    {
      HandOverFinds(state, r);
      ReachableStep(state, BySender(HandOver(r)));
      state := Send(state, HandOver(r));
    }

    // -------------------------------------------------------------- Close

    /** Taking the latch: only the first Close goes on. */
    method CloseLatch() returns (first: bool)
      requires Valid()
      modifies this`state, this`closed
      ensures Valid() && closed && first == !old(closed)
      ensures state == Close(old(state), if first then Latch else Again)
    {
      first := !closed;
      closed := true;
      ReachableStep(state, ByCloser(if first then Latch else Again));
      state := Close(state, if first then Latch else Again);
    }

    method CloseSignal()
      requires Valid() && state.sig.latched > 0
      modifies this`state, this`drainCh
      ensures Valid() && state == Close(old(state), SignalDrain) && old(drainCh) == 0 && drainCh == 1
    {
      ChannelsOpen(state);
      drainCh := drainCh + 1;
      ReachableStep(state, ByCloser(SignalDrain));
      state := Close(state, SignalDrain);
    }

    /** The select on doneCh and the drain timeout. */
    method CloseWait(timedOut: bool)
      requires Valid() && state.sig.waiting > 0 && (timedOut || doneCh > 0)
      modifies this`state, this`closeCh
      ensures Valid() && state == Close(old(state), if timedOut then TimeOut else SeeDone)
      ensures old(closeCh) == 0 && closeCh == if timedOut then 1 else 0
    {
      ChannelsOpen(state);
      if timedOut { closeCh := closeCh + 1; }
      ReachableStep(state, ByCloser(if timedOut then TimeOut else SeeDone));
      state := Close(state, if timedOut then TimeOut else SeeDone);
    }

    /** The wait group has emptied; only now is the connection closed. */
    method CloseConn()
      requires Valid() && state.sig.joining > 0 && state.worker.Gone?
      modifies this`state, this`connClosed
      ensures Valid() && state == Close(old(state), Join) && connClosed
    {
      connClosed := true;
      ReachableStep(state, ByCloser(Join));
      state := Close(state, Join);
    }

    // -------------------------------------------------------------- the worker goroutine

    /** Takes the next request, in the main loop or the drain loop. */
    method Take() returns (r: Request)
      requires Valid() && state.worker.AtSelect() && queue != []
      modifies this`state, this`queue
      ensures Valid() && state == Work(old(state), PickQueue)
      ensures r == old(queue[0]) && queue == old(queue[1..]) && state.worker == Holding(r, old(state.worker.Draining?))
    {
      r, queue := queue[0], queue[1..];
      ReachableStep(state, ByWorker(PickQueue));
      state := Work(state, PickQueue);
    }

    /** The checks before any I/O: a forced close, then (PostgreSQL) a dead connection. */
    method Admit(r: Request) returns (go: bool)
      requires Valid() && state.worker.Holding? && state.worker.request == r
      modifies this`state
      ensures Valid() && state == Work(old(state), Check)
      ensures go == (closeCh == 0 && !(kind.Pg? && dead)) && (go <==> state.worker.Cleared?)
    {
      go := closeCh == 0 && !(kind.Pg? && dead);
      ReachableStep(state, ByWorker(Check));
      state := Work(state, Check);
    }

    /** The write, on a connection that is open; a failure is final for PostgreSQL. */
    method WriteRequest(r: Request, ok: bool) returns (reading: bool)
      requires Valid() && state.worker.Cleared? && state.worker.request == r
      modifies this`state, this`dead, this`connClosed
      ensures Valid() && state == Work(old(state), Write(ok)) && !old(connClosed)
      ensures reading == (ok && r.answered) && (reading <==> state.worker.Reading?)
    {
      ChannelsOpen(state);
      DeadIsClosed(state);
      reading := ok && r.answered;
      if !ok { MarkDead(); }
      ReachableStep(state, ByWorker(Write(ok)));
      state := Work(state, Write(ok));
    }

    /** One message of the response, or a read error. */
    method ReadResponse(ok: bool, last: bool)
      requires Valid() && state.worker.Reading?
      modifies this`state, this`dead, this`connClosed
      ensures Valid() && state == Work(old(state), if ok then ReadMessage(last) else ReadFail) && !old(connClosed)
    {
      ChannelsOpen(state);
      DeadIsClosed(state);
      if !ok { MarkDead(); }
      ReachableStep(state, ByWorker(if ok then ReadMessage(last) else ReadFail));
      state := Work(state, if ok then ReadMessage(last) else ReadFail);
    }

    /** The PostgreSQL worker latches once and closes the connection; the MySQL one goes on. */
    method MarkDead()
      modifies this`dead, this`connClosed
      requires dead ==> connClosed
      ensures kind.Pg? ==> dead && connClosed
      ensures kind.MySql? ==> dead == old(dead) && connClosed == old(connClosed)
    {
      if kind.Pg? && !dead { dead, connClosed := true, true; }
    }

    /** The worker returns: doneCh is closed, once, and then the wait group is left. */
    method Announce()
      requires Valid() && state.worker.Leaving?
      modifies this`state, this`doneCh
      ensures Valid() && state == Work(old(state), WorkStep.Announce) && old(doneCh) == 0 && doneCh == 1
    {
      ChannelsOpen(state);
      doneCh := doneCh + 1;
      ReachableStep(state, ByWorker(WorkStep.Announce));
      state := Work(state, WorkStep.Announce);
    }

    /** The response to a request, of any length, when nothing interferes: read to its last
        message, or to a fault in place of that. */
    method AwaitResponse(messages: nat, readOk: bool)
      requires Valid() && state.worker.Reading?
      modifies this`state, this`dead, this`connClosed
      ensures Valid() && state.worker == old(state.worker).Loop()
      ensures state.sig == old(state.sig) && state.desk == old(state.desk) && state.track == old(state.track)
      ensures state.link.wire == old(state.link.wire) + Response(messages, readOk)
      ensures dead == (old(dead) || (kind.Pg? && !readOk))
    {
      ghost var worker, sig, desk, track := state.worker, state.sig, state.desk, state.track;
      ghost var wire := state.link.wire;
      assert wire + More(0) == wire;
      var i := 0;
      while i < messages
        invariant Valid() && state.worker == worker && dead == old(dead) && i <= messages
        invariant state.track == track && state.sig == sig && state.desk == desk
        invariant state.link.wire == wire + More(i)
      {
        ReadResponse(true, false);
        OneMore(wire, i);
        i := i + 1;
      }
      ReadResponse(readOk, true);
      Network.Regroup(wire, More(messages), [if readOk then Read(true) else ReadFailed]);
      DeadIsClosed(state);
    }

    /** An admitted request is written and, if one is due, its response awaited. */
    method Converse(r: Request, io: Io)
      requires Valid() && state.worker.Cleared? && state.worker.request == r
      modifies this`state, this`dead, this`connClosed
      ensures Valid() && state.worker == old(state.worker).Loop()
      ensures state.sig == old(state.sig) && state.desk == old(state.desk) && state.track == old(state.track)
      ensures state.link.wire == old(state.link.wire) + Talk(r, io)
      ensures dead == (old(dead) || (kind.Pg? && io.Fails(r)))
    {
      ghost var wire := state.link.wire;
      DeadIsClosed(state);
      var reading := WriteRequest(r, io.writeOk);
      DeadIsClosed(state);
      if reading { AwaitResponse(io.messages, io.readOk); }
      Network.Regroup(wire, [Wrote(r)], Response(io.messages, io.readOk));
    }

    /** One request from check to response, whatever the I/O does, when nothing interferes: it is
        written and answered exactly when no forced close and no dead connection stands against
        it, and otherwise nothing crosses the connection. */
    method ProcessRequest(r: Request, io: Io)
      requires Valid() && state.worker.Holding? && state.worker.request == r
      modifies this`state, this`dead, this`connClosed
      ensures Valid() && state.worker == old(state.worker).Loop()
      ensures state.sig == old(state.sig) && state.desk == old(state.desk)
      ensures state.track.accepted == old(state.track.accepted)
      ensures var go := closeCh == 0 && !(kind.Pg? && old(dead));
        && state.track.attempted == old(state.track.attempted) + (if go then [r] else [])
        && state.link.wire == old(state.link.wire) + (if go then Talk(r, io) else [])
        && dead == (old(dead) || (go && kind.Pg? && io.Fails(r)))
    {
      ghost var was, wire := state.track.attempted, state.link.wire;
      assert was + [] == was && wire + [] == wire;
      var go := Admit(r);
      if go { Converse(r, io); }
    }

    /** One pass of the drain loop when nothing interferes. */
    method DrainNext(io: Request -> Io)
      requires Valid() && state.worker.Draining? && queue != []
      modifies this`state, this`queue, this`dead, this`connClosed
      ensures Valid() && state.worker.Draining? && queue == old(queue[1..])
      ensures state.track.accepted == old(state.track.accepted)
      ensures var r, go := old(queue[0]), closeCh == 0 && !(kind.Pg? && old(dead));
        && state.track.attempted == old(state.track.attempted) + (if go then [r] else [])
        && state.link.wire == old(state.link.wire) + (if go then Talk(r, io(r)) else [])
        && dead == (old(dead) || (go && kind.Pg? && io(r).Fails(r)))
    {
      var r := Take();
      ProcessRequest(r, io(r));
    }

    /** The passes of the drain loop when nothing interferes, until the queue is empty or, under a
        forced close, the select has taken `patience` requests. */
    method DrainQueue(io: Request -> Io, patience: nat)
      requires Valid() && state.worker.Draining?
      modifies this`state, this`queue, this`dead, this`connClosed
      ensures Valid() && state.worker.Draining? && state.track.accepted == old(state.track.accepted)
      ensures closeCh == 0 ==>
        && queue == []
        && state.track.attempted == old(state.track.attempted) + Reached(kind, old(dead), io, old(queue))
        && state.link.wire == old(state.link.wire) + Talks(kind, old(dead), io, old(queue))
      ensures closeCh > 0 ==>
        state.track.attempted == old(state.track.attempted) && state.link.wire == old(state.link.wire)
    {
      ghost var was, wire := state.track.attempted, state.link.wire;
      ghost var sent, said: seq<Event> := [], [];
      ghost var allSent, allSaid := Reached(kind, dead, io, queue), Talks(kind, dead, io, queue);
      var taken := 0;
      assert was + [] == was && wire + [] == wire && [] + allSent == allSent && [] + allSaid == allSaid;
      while queue != [] && !(closeCh > 0 && taken == patience)
        invariant Valid() && state.worker.Draining? && state.track.accepted == old(state.track.accepted)
        invariant state.track.attempted == was + sent && state.link.wire == wire + said
        invariant closeCh == 0 ==> sent + Reached(kind, dead, io, queue) == allSent
        invariant closeCh == 0 ==> said + Talks(kind, dead, io, queue) == allSaid
        invariant closeCh > 0 ==> sent == [] && said == []
        decreases |queue|
      {
        ghost var r, go := queue[0], closeCh == 0 && !(kind.Pg? && dead);
        ghost var one, talk := if go then [r] else [], if go then Talk(r, io(r)) else [];
        DrainStep(kind, dead, io, queue, sent, said);
        Network.Regroup(was, sent, one);
        Network.Regroup(wire, said, talk);
        DrainNext(io);
        sent, said, taken := sent + one, said + talk, taken + 1;
      }
      assert closeCh == 0 ==> sent + [] == sent && said + [] == said;
    }

    /** The drain of the worker when nothing interferes. With no forced close it empties the queue:
        the requests are written and answered in order, up to and including the first fault of a
        PostgreSQL connection; so all of them are sent unless there is one, and if nothing fails
        all are delivered. Under a forced close nothing crosses the connection. */
    method DrainPending(io: Request -> Io, patience: nat)
      requires Valid() && state.worker.Draining?
      modifies this`state, this`queue, this`dead, this`connClosed
      ensures Valid() && state.worker.Leaving? && state.track.accepted == old(state.track.accepted)
      ensures closeCh == 0 ==>
        && queue == []
        && state.track.attempted == old(state.track.attempted) + Reached(kind, old(dead), io, old(queue))
        && state.link.wire == old(state.link.wire) + Talks(kind, old(dead), io, old(queue))
      ensures closeCh == 0 && (kind.MySql? || (!old(dead) && AllWell(io, old(queue)))) ==>
        state.track.attempted == old(state.track.attempted) + old(queue)
      ensures closeCh == 0 && (kind.MySql? || !old(dead)) && AllWell(io, old(queue)) ==>
        Delivered(state.link.wire) == Delivered(old(state.link.wire)) + old(queue)
      ensures closeCh > 0 ==>
        state.track.attempted == old(state.track.attempted) && state.link.wire == old(state.link.wire)
    {
      if kind.MySql? || (!dead && AllWell(io, queue)) { AllReached(kind, dead, io, queue); }
      if (kind.MySql? || !dead) && AllWell(io, queue) { AllAnswered(kind, dead, io, queue, state.link.wire); }
      DrainQueue(io, patience);
      ghost var a := if closeCh > 0 then PickForce else DrainDone;
      ReachableStep(state, ByWorker(a));
      state := Work(state, a);
    }
  }

  // ---------------------------------------------------------------- what crosses the connection

  /** `n` messages of a response that are not its last. */
  function More(n: nat): seq<Event> { seq(n, i => Read(false)) }

  lemma {:induction false} OneMore(wire: seq<Event>, n: nat)
    ensures (wire + More(n)) + [Read(false)] == wire + More(n + 1)
  {
    assert More(n) + [Read(false)] == More(n + 1);
  }

  /** A response: its messages and the last one, or a failed read in place of that. */
  function Response(messages: nat, readOk: bool): seq<Event> {
    More(messages) + [if readOk then Read(true) else ReadFailed]
  }

  /** One request and, if it was written and is answered, its whole response. */
  function Talk(r: Request, io: Io): seq<Event> {
    if !io.writeOk then [WriteFailed(r)]
    else if r.answered then [Wrote(r)] + Response(io.messages, io.readOk)
    else [Wrote(r)]
  }

  /** Of the requests in a queue, those that a worker gets to send, and all that then crosses the
      connection: for MySQL all of them, for PostgreSQL up to the first fault. */
  function Reached(kind: Kind, dead: bool, io: Request -> Io, rs: seq<Request>): seq<Request>
    decreases |rs|
  {
    if rs == [] || (kind.Pg? && dead) then []
    else [rs[0]] + Reached(kind, dead || (kind.Pg? && io(rs[0]).Fails(rs[0])), io, rs[1..])
  }

  function Talks(kind: Kind, dead: bool, io: Request -> Io, rs: seq<Request>): seq<Event>
    decreases |rs|
  {
    if rs == [] || (kind.Pg? && dead) then []
    else Talk(rs[0], io(rs[0])) + Talks(kind, dead || (kind.Pg? && io(rs[0]).Fails(rs[0])), io, rs[1..])
  }

  lemma {:induction false} DrainStep(kind: Kind, dead: bool, io: Request -> Io, rs: seq<Request>,
                                     sent: seq<Request>, said: seq<Event>)
    requires rs != []
    ensures var r, go := rs[0], !(kind.Pg? && dead);
      var next := dead || (go && kind.Pg? && io(r).Fails(r));
      && (sent + if go then [r] else []) + Reached(kind, next, io, rs[1..]) == sent + Reached(kind, dead, io, rs)
      && (said + if go then Talk(r, io(r)) else []) + Talks(kind, next, io, rs[1..]) == said + Talks(kind, dead, io, rs)
  {
    var r, go := rs[0], !(kind.Pg? && dead);
    var next := dead || (go && kind.Pg? && io(r).Fails(r));
    if go {
      Network.Regroup(sent, [r], Reached(kind, next, io, rs[1..]));
      Network.Regroup(said, Talk(r, io(r)), Talks(kind, next, io, rs[1..]));
    } else {
      assert sent + [] == sent && said + [] == said;
    }
  }

  /** The I/O of none of these requests fails. */
  predicate AllWell(io: Request -> Io, rs: seq<Request>) {
    rs == [] || (!io(rs[0]).Fails(rs[0]) && AllWell(io, rs[1..]))
  }

  /** A MySQL worker sends the whole queue whatever happens, a PostgreSQL worker if its connection
      is alive and nothing fails. */
  lemma {:induction false} AllReached(kind: Kind, dead: bool, io: Request -> Io, rs: seq<Request>)
    requires kind.MySql? || (!dead && AllWell(io, rs))
    ensures Reached(kind, dead, io, rs) == rs
    decreases |rs|
  {
    if rs != [] {
      AllReached(kind, dead, io, rs[1..]);
      assert [rs[0]] + rs[1..] == rs;
    }
  }

  /** From one point of the history to another these requests were delivered, and what was owed for
      them was read. */
  predicate Served(before: seq<Event>, after: seq<Event>, rs: seq<Request>) {
    Delivered(after) == Delivered(before) + rs && Owing(after) == Owing(before)
  }

  lemma {:induction false} ServedNone(wire: seq<Event>, rs: seq<Request>)
    requires |rs| == 0
    ensures Served(wire, wire, rs)
  {
    assert Delivered(wire) + rs == Delivered(wire);
  }

  lemma {:induction false} ServedThen(a: seq<Event>, b: seq<Event>, c: seq<Event>, rs: seq<Request>)
    requires rs != [] && Served(a, b, [rs[0]]) && Served(b, c, rs[1..])
    ensures Served(a, c, rs)
  {
    Network.Regroup(Delivered(a), [rs[0]], rs[1..]);
    assert [rs[0]] + rs[1..] == rs;
  }

  /** If moreover nothing fails, every request of the queue is delivered, in order, and all that was
      owed has been read. */
  lemma {:induction false} AllAnswered(kind: Kind, dead: bool, io: Request -> Io, rs: seq<Request>, wire: seq<Event>)
    requires AllWell(io, rs) && (kind.MySql? || !dead)
    ensures Served(wire, wire + Talks(kind, dead, io, rs), rs)
    decreases |rs|
  {
    if rs == [] {
      assert wire + Talks(kind, dead, io, rs) == wire;
      ServedNone(wire, rs);
    } else {
      var said := wire + Talk(rs[0], io(rs[0]));
      TalkAnswered(rs[0], io(rs[0]), wire);
      AllAnswered(kind, dead, io, rs[1..], said);
      TalksHead(kind, dead, io, rs, wire);
      ServedThen(wire, said, wire + Talks(kind, dead, io, rs), rs);
    }
  }

  lemma {:induction false} TalksHead(kind: Kind, dead: bool, io: Request -> Io, rs: seq<Request>, wire: seq<Event>)
    requires rs != [] && !io(rs[0]).Fails(rs[0]) && (kind.MySql? || !dead)
    ensures wire + Talks(kind, dead, io, rs) == (wire + Talk(rs[0], io(rs[0]))) + Talks(kind, dead, io, rs[1..])
  {
    Network.Regroup(wire, Talk(rs[0], io(rs[0])), Talks(kind, dead, io, rs[1..]));
  }

  lemma {:induction false} TalkAnswered(r: Request, io: Io, wire: seq<Event>)
    requires !io.Fails(r)
    ensures Served(wire, wire + Talk(r, io), [r])
  {
    EventSnoc(wire, Wrote(r));
    if r.answered {
      MoreRead(wire + [Wrote(r)], io.messages);
      EventSnoc(wire + [Wrote(r)] + More(io.messages), Read(true));
      Network.Regroup(wire, [Wrote(r)], Response(io.messages, true));
      Network.Regroup(wire + [Wrote(r)], More(io.messages), [Read(true)]);
      assert Delivered(wire) + [r] + [] == Delivered(wire) + [r];
    }
  }

  lemma {:induction false} MoreRead(wire: seq<Event>, n: nat)
    ensures Delivered(wire + More(n)) == Delivered(wire) && Owing(wire + More(n)) == Owing(wire)
  {
    if n == 0 {
      assert wire + More(0) == wire;
    } else {
      MoreRead(wire, n - 1);
      OneMore(wire, n - 1);
      EventSnoc(wire + More(n - 1), Read(false));
      assert Delivered(wire) + [] == Delivered(wire);
    }
  }

  lemma {:induction false} EventSnoc(wire: seq<Event>, e: Event)
    ensures Delivered(wire + [e]) == Delivered(wire) + if e.Wrote? then [e.request] else []
    ensures Owing(wire + [e]) ==
      Owing(wire) + if e.Wrote? && e.request.answered then 1 else if e.Read? && e.last then -1 else 0
  {
    assert (wire + [e])[..|wire|] == wire;
  }
}
