/** The life of a shadow worker as a step machine: any number of senders and closers and one
    worker goroutine, interleaved at their atomic actions. The MySQL and the PostgreSQL
    worker share this life; only the latter latches `dead` on its first I/O error. */
module ShadowLifecycle {
  import Network

  datatype Kind = MySql | Pg

  /** `countable`: counted as a query; `answered`: the shadow sends a response. */
  datatype Request = Request(id: nat, countable: bool, answered: bool)

  /** Where the worker goroutine stands. `Holding` has taken a request from the queue,
      `Cleared` has decided to send it, `Reading` waits for the response; `Leaving` has
      returned, `Announced` has also closed doneCh, `Gone` has left the wait group. */
  datatype Worker =
    | Selecting
    | Draining
    | Holding(request: Request, draining: bool)
    | Cleared(request: Request, draining: bool)
    | Reading(request: Request, draining: bool)
    | Leaving
    | Announced
    | Gone
  {
    function Loop(): Worker
      requires Holding? || Cleared? || Reading?
    {
      if draining then Draining else Selecting
    }
    predicate AtSelect() { Selecting? || Draining? }
    predicate Left() { Leaving? || Announced? || Gone? }
    predicate Busy() { Cleared? || Reading? }
    predicate InDrain() { Draining? || ((Holding? || Busy()) && draining) }
    function Held(): seq<Request> { if Holding? then [request] else [] }
  }

  /** The mutex-guarded flag, how often each channel was closed, and how many Close calls
      past the latch stand before closing drainCh, before the select, in wg.Wait, at the end. */
  datatype Signals = Signals(closed: bool, drain: nat, force: nat, done: nat,
                             latched: nat, waiting: nat, joining: nat, finished: nat)

  /** Send calls: before the closed check, past it; and how earlier ones failed. */
  datatype Desk = Desk(entered: multiset<Request>, passed: multiset<Request>, offered: multiset<Request>,
                       connDead: multiset<Request>, turnedAway: multiset<Request>, refused: seq<Request>)

  /** Requests that entered the queue, and what became of those taken out of it: sent,
      passed over because the connection is dead, given up after a forced close. */
  datatype Track = Track(queue: seq<Request>, accepted: seq<Request>,
                         attempted: seq<Request>, skipped: seq<Request>, abandoned: seq<Request>)
  {
    function Settled(): seq<Request> { attempted + skipped + abandoned }
  }

  datatype Event = Wrote(request: Request) | WriteFailed(request: Request) | Read(last: bool) | ReadFailed

  /** The shadow connection and everything that crossed it. */
  datatype Link = Link(dead: bool, connClosed: bool, wire: seq<Event>)

  datatype State = State(kind: Kind, capacity: nat, sig: Signals, desk: Desk, track: Track, link: Link, worker: Worker)

  function Initial(kind: Kind, capacity: nat): State {
    State(kind, capacity, Signals(false, 0, 0, 0, 0, 0, 0, 0),
          Desk(multiset{}, multiset{}, multiset{}, multiset{}, multiset{}, []),
          Track([], [], [], [], []), Link(false, false, []), Selecting)
  }

  // ---------------------------------------------------------------- senders

  /** `Push` is the non-blocking send on the channel. On an unbuffered one it succeeds only by
      `HandOver`, to a worker that waits in its main select; a draining worker does not wait. */
  datatype SendStep =
    | Start(request: Request)
    | CheckClosed(request: Request)
    | Push(request: Request)
    | HandOver(request: Request)

  predicate CanSend(s: State, a: SendStep) {
    match a
    case Start(_) => true
    case CheckClosed(r) => r in s.desk.entered
    case Push(r) => r in s.desk.passed
    case HandOver(r) => r in s.desk.passed && s.capacity == 0 && s.worker.Selecting? && s.sig.drain == 0
  }

  function Send(s: State, a: SendStep): State
    requires CanSend(s, a)
  {
    var d, r := s.desk, a.request;
    match a
    case Start(_) =>
      if s.kind.Pg? && s.link.dead then
        s.(desk := d.(offered := d.offered + multiset{r}, connDead := d.connDead + multiset{r}))
      else s.(desk := d.(offered := d.offered + multiset{r}, entered := d.entered + multiset{r}))
    case CheckClosed(_) =>
      if s.sig.closed then s.(desk := d.(entered := d.entered - multiset{r}, turnedAway := d.turnedAway + multiset{r}))
      else s.(desk := d.(entered := d.entered - multiset{r}, passed := d.passed + multiset{r}))
    case Push(_) =>
      if |s.track.queue| < s.capacity then
        s.(desk := d.(passed := d.passed - multiset{r}),
           track := s.track.(queue := s.track.queue + [r], accepted := s.track.accepted + [r]))
      else s.(desk := d.(passed := d.passed - multiset{r}, refused := d.refused + [r]))
    case HandOver(_) =>
      s.(desk := d.(passed := d.passed - multiset{r}),
         track := s.track.(accepted := s.track.accepted + [r]),
         worker := Holding(r, false))
  }

  // ---------------------------------------------------------------- closers

  datatype CloseStep = Again | Latch | SignalDrain | SeeDone | TimeOut | Join

  predicate CanClose(s: State, a: CloseStep) {
    match a
    case Again => s.sig.closed
    case Latch => !s.sig.closed
    case SignalDrain => s.sig.latched > 0
    case SeeDone => s.sig.waiting > 0 && s.sig.done > 0
    case TimeOut => s.sig.waiting > 0
    case Join => s.sig.joining > 0 && s.worker.Gone?
  }

  function Close(s: State, a: CloseStep): State
    requires CanClose(s, a)
  {
    var g := s.sig;
    match a
    case Again => s
    case Latch => s.(sig := g.(closed := true, latched := g.latched + 1))
    case SignalDrain => s.(sig := g.(latched := g.latched - 1, waiting := g.waiting + 1, drain := g.drain + 1))
    case SeeDone => s.(sig := g.(waiting := g.waiting - 1, joining := g.joining + 1))
    case TimeOut => s.(sig := g.(waiting := g.waiting - 1, joining := g.joining + 1, force := g.force + 1))
    case Join =>
      s.(sig := g.(joining := g.joining - 1, finished := g.finished + 1), link := s.link.(connClosed := true))
  }

  // ---------------------------------------------------------------- the worker

  datatype WorkStep =
    | PickQueue | PickDrain | PickForce | DrainDone
    | Check | Write(ok: bool) | ReadMessage(last: bool) | ReadFail
    | Announce | Leave

  predicate CanWork(s: State, a: WorkStep) {
    match a
    case PickQueue => s.worker.AtSelect() && s.track.queue != []
    case PickDrain => s.worker.Selecting? && s.sig.drain > 0
    case PickForce => s.worker.AtSelect() && s.sig.force > 0
    case DrainDone => s.worker.Draining? && s.track.queue == [] && s.sig.force == 0
    case Check => s.worker.Holding?
    case Write(_) => s.worker.Cleared?
    case ReadMessage(_) => s.worker.Reading?
    case ReadFail => s.worker.Reading?
    case Announce => s.worker.Leaving?
    case Leave => s.worker.Announced?
  }

  /** An I/O error: the PostgreSQL worker latches and closes its connection. */
  function Failed(kind: Kind, l: Link, e: Event): Link {
    Link(l.dead || kind.Pg?, l.connClosed || kind.Pg?, l.wire + [e])
  }

  function Work(s: State, a: WorkStep): State
    requires CanWork(s, a)
  {
    var w, k, l := s.worker, s.track, s.link;
    match a
    case PickQueue => s.(track := k.(queue := k.queue[1..]), worker := Holding(k.queue[0], w.Draining?))
    case PickDrain => s.(worker := Draining)
    case PickForce => s.(worker := Leaving)
    case DrainDone => s.(worker := Leaving)
    case Check =>
      if s.sig.force > 0 then s.(worker := w.Loop(), track := k.(abandoned := k.abandoned + [w.request]))
      else if s.kind.Pg? && l.dead then s.(worker := w.Loop(), track := k.(skipped := k.skipped + [w.request]))
      else s.(worker := Cleared(w.request, w.draining), track := k.(attempted := k.attempted + [w.request]))
    case Write(ok) =>
      if !ok then s.(worker := w.Loop(), link := Failed(s.kind, l, WriteFailed(w.request)))
      else s.(worker := if w.request.answered then Reading(w.request, w.draining) else w.Loop(),
              link := l.(wire := l.wire + [Wrote(w.request)]))
    case ReadMessage(last) =>
      s.(worker := if last then w.Loop() else w, link := l.(wire := l.wire + [Read(last)]))
    case ReadFail => s.(worker := w.Loop(), link := Failed(s.kind, l, ReadFailed))
    case Announce => s.(worker := Announced, sig := s.sig.(done := s.sig.done + 1))
    case Leave => s.(worker := Gone)
  }

  // ---------------------------------------------------------------- runs

  datatype Action = BySender(send: SendStep) | ByCloser(close: CloseStep) | ByWorker(work: WorkStep)

  predicate Enabled(s: State, a: Action) {
    match a
    case BySender(x) => CanSend(s, x)
    case ByCloser(x) => CanClose(s, x)
    case ByWorker(x) => CanWork(s, x)
  }

  function Apply(s: State, a: Action): State
    requires Enabled(s, a)
  {
    match a
    case BySender(x) => Send(s, x)
    case ByCloser(x) => Close(s, x)
    case ByWorker(x) => Work(s, x)
  }

  predicate Runs(s: State, run: seq<Action>)
    decreases |run|
  {
    run == [] || (Enabled(s, run[0]) && Runs(Apply(s, run[0]), run[1..]))
  }

  function After(s: State, run: seq<Action>): State
    requires Runs(s, run)
    decreases |run|
  {
    if run == [] then s else After(Apply(s, run[0]), run[1..])
  }

  // ---------------------------------------------------------------- what every step keeps

  /** How the connection's history reads: is a response owed, was there an error, did
      anything happen that must not. */
  datatype Line = Idle | Owed | Broken | Misused

  function LineStep(kind: Kind, line: Line, e: Event): Line {
    match line
    case Idle =>
      (match e case Wrote(r) => (if r.answered then Owed else Idle) case WriteFailed(_) => Broken case _ => Misused)
    case Owed => (match e case Read(last) => (if last then Idle else Owed) case ReadFailed => Broken case _ => Misused)
    case Broken => if kind.Pg? then Misused else Broken
    case Misused => Misused
  }

  function LineOf(kind: Kind, wire: seq<Event>): Line
    decreases |wire|
  {
    if wire == [] then Idle else LineStep(kind, LineOf(kind, wire[..|wire| - 1]), wire[|wire| - 1])
  }

  lemma {:induction false} LineSnoc(kind: Kind, wire: seq<Event>, e: Event)
    ensures LineOf(kind, wire + [e]) == LineStep(kind, LineOf(kind, wire), e)
  {
    assert (wire + [e])[..|wire|] == wire;
  }

  predicate Stands(g: Signals, latched: nat, waiting: nat, joining: nat, finished: nat) {
    g.latched == latched && g.waiting == waiting && g.joining == joining && g.finished == finished
  }

  /** Signals: each channel is closed at most once, and only by the one Close call that
      latched; the worker drains or leaves only when told to. */
  predicate SignalsOk(g: Signals, w: Worker) {
    && (if g.closed then
          Stands(g, 1, 0, 0, 0) || Stands(g, 0, 1, 0, 0) || Stands(g, 0, 0, 1, 0) || Stands(g, 0, 0, 0, 1)
        else Stands(g, 0, 0, 0, 0))
    && g.drain == (if g.closed && g.latched == 0 then 1 else 0)
    && (g.force == 0 || (g.force == 1 && (g.joining == 1 || g.finished == 1)))
    && g.done == (if w.Announced? || w.Gone? then 1 else 0)
    && (w.Left() || w.InDrain() ==> g.drain > 0)
    && (g.finished > 0 ==> w.Gone?)
  }

  /** Every accepted request is in exactly one place, and the places are in queue order. */
  predicate OrderOk(s: State) {
    var k := s.track;
    && k.accepted == k.Settled() + s.worker.Held() + k.queue
    && |k.queue| <= s.capacity
    && (k.skipped != [] ==> s.kind.Pg? && s.link.dead)
    && (k.abandoned != [] ==> s.sig.force > 0)
  }

  /** Every Send call ends in one way, or is still under way. */
  predicate FatesOk(d: Desk, k: Track) {
    d.offered == d.connDead + d.turnedAway + d.entered + d.passed + multiset(d.refused) + multiset(k.accepted)
  }

  /** The connection: used only while open, and in lockstep until the first error. */
  predicate WireOk(kind: Kind, l: Link, w: Worker, finished: nat) {
    var line := LineOf(kind, l.wire);
    && line != Misused
    && (kind.Pg? ==> (line == Broken <==> l.dead))
    && (line != Broken ==> (line == Owed <==> w.Reading?))
    && (l.connClosed <==> finished > 0 || (kind.Pg? && l.dead))
    && (kind.MySql? ==> !l.dead)
    && (w.Busy() ==> !l.connClosed)
  }

  /** The requests whose write was tried, in the order of the connection's history. */
  function Tried(wire: seq<Event>): seq<Request>
    decreases |wire|
  {
    if wire == [] then []
    else
      var e := wire[|wire| - 1];
      Tried(wire[..|wire| - 1]) + if e.Wrote? || e.WriteFailed? then [e.request] else []
  }

  lemma {:induction false} TriedSnoc(wire: seq<Event>, e: Event)
    ensures Tried(wire + [e]) == Tried(wire) + if e.Wrote? || e.WriteFailed? then [e.request] else []
  {
    assert (wire + [e])[..|wire|] == wire;
  }

  /** The record of requests sent is what the connection has seen, and the one about to be. */
  predicate SentOk(s: State) {
    s.track.attempted == Tried(s.link.wire) + if s.worker.Cleared? then [s.worker.request] else []
  }

  predicate Inv(s: State) {
    && SignalsOk(s.sig, s.worker) && OrderOk(s) && FatesOk(s.desk, s.track)
    && WireOk(s.kind, s.link, s.worker, s.sig.finished) && SentOk(s)
  }

  lemma {:induction false} InitialInv(kind: Kind, capacity: nat)
    ensures Inv(Initial(kind, capacity))
  {}

  lemma {:induction false} SendKeepsOrder(s: State, a: SendStep)
    requires OrderOk(s) && CanSend(s, a)
    ensures OrderOk(Send(s, a))
  {
    if a.Push? && |s.track.queue| < s.capacity {
      Network.Regroup(s.track.Settled() + s.worker.Held(), s.track.queue, [a.request]);
    }
  }

  lemma {:induction false} MultisetSnoc<T>(s: seq<T>, x: T)
    ensures multiset(s + [x]) == multiset(s) + multiset{x}
  {}

  /** One request moved from one of six heaps to another, or added to one: the sum follows. */
  lemma {:induction false} Heaps(
    all: multiset<Request>, a: multiset<Request>, b: multiset<Request>, c: multiset<Request>,
              d: multiset<Request>, e: multiset<Request>, f: multiset<Request>, r: Request)
    requires all == a + b + c + d + e + f
    ensures all + multiset{r} == (a + multiset{r}) + b + c + d + e + f
    ensures all + multiset{r} == a + b + (c + multiset{r}) + d + e + f
    ensures r in c ==> all == a + (b + multiset{r}) + (c - multiset{r}) + d + e + f
    ensures r in c ==> all == a + b + (c - multiset{r}) + (d + multiset{r}) + e + f
    ensures r in d ==> all == a + b + c + (d - multiset{r}) + (e + multiset{r}) + f
    ensures r in d ==> all == a + b + c + (d - multiset{r}) + e + (f + multiset{r})
  {}

  lemma {:induction false} SendKeepsFates(s: State, a: SendStep)
    requires FatesOk(s.desk, s.track) && CanSend(s, a)
    ensures FatesOk(Send(s, a).desk, Send(s, a).track)
  {
    var d, k := s.desk, s.track;
    MultisetSnoc(d.refused, a.request);
    MultisetSnoc(k.accepted, a.request);
    Heaps(d.offered, d.connDead, d.turnedAway, d.entered, d.passed,
          multiset(d.refused), multiset(k.accepted), a.request);
  }

  /** Senders leave the connection, the signals and, unless they hand over, the worker alone. */
  lemma {:induction false} SendersOnlySend(s: State, a: SendStep)
    requires CanSend(s, a)
    ensures var t := Send(s, a);
      && t.kind == s.kind && t.sig == s.sig && t.link == s.link && t.track.attempted == s.track.attempted
      && (if a.HandOver? then s.worker.Selecting? && t.worker == Holding(a.request, false) else t.worker == s.worker)
  {}

  lemma {:induction false} SendKeepsRest(s: State, a: SendStep)
    requires SignalsOk(s.sig, s.worker) && WireKept(s) && SentOk(s) && CanSend(s, a)
    ensures var t := Send(s, a); SignalsOk(t.sig, t.worker) && WireKept(t) && SentOk(t)
  {
    SendersOnlySend(s, a);
  }

  lemma {:induction false} SendKeeps(s: State, a: SendStep)
    requires Inv(s) && CanSend(s, a)
    ensures Inv(Send(s, a))
  {
    SendKeepsOrder(s, a);
    SendKeepsFates(s, a);
    SendKeepsRest(s, a);
  }

  /** Closers leave the queue, the senders, the worker and the connection's history alone. */
  lemma {:induction false} ClosersOnlyClose(s: State, a: CloseStep)
    requires CanClose(s, a)
    ensures var t := Close(s, a);
      && t.kind == s.kind && t.capacity == s.capacity && t.desk == s.desk && t.track == s.track && t.worker == s.worker
      && t.link == s.link.(connClosed := s.link.connClosed || a.Join?) && s.sig.force <= t.sig.force
  {}

  lemma {:induction false} CloseKeepsSignals(s: State, a: CloseStep)
    requires SignalsOk(s.sig, s.worker) && CanClose(s, a)
    ensures SignalsOk(Close(s, a).sig, s.worker) && (Close(s, a).sig.finished > 0 <==> s.sig.finished > 0 || a.Join?)
  {}

  lemma {:induction false} CloseKeeps(s: State, a: CloseStep)
    requires Inv(s) && CanClose(s, a)
    ensures Inv(Close(s, a))
  {
    var t := Close(s, a);
    ClosersOnlyClose(s, a);
    CloseKeepsSignals(s, a);
    assert OrderOk(t) && FatesOk(t.desk, t.track) && SentOk(t);
    assert WireOk(t.kind, t.link, t.worker, t.sig.finished);
  }

  lemma {:induction false} WorkKeepsSignals(s: State, a: WorkStep)
    requires SignalsOk(s.sig, s.worker) && CanWork(s, a)
    ensures SignalsOk(Work(s, a).sig, Work(s, a).worker)
  {}

  /** Requests leave the queue from its head and settle in the order they left. */
  lemma {:induction false} PickKeepsOrder(s: State)
    requires OrderOk(s) && CanWork(s, PickQueue)
    ensures OrderOk(Work(s, PickQueue))
  {
    var k := s.track;
    assert k.queue == [k.queue[0]] + k.queue[1..];
    assert k.Settled() + [] == k.Settled();
    Network.Regroup(k.Settled(), [k.queue[0]], k.queue[1..]);
  }

  lemma {:induction false} CheckKeepsOrder(s: State)
    requires OrderOk(s) && CanWork(s, Check)
    ensures OrderOk(Work(s, Check))
  {
    var k, t := s.track, Work(s, Check).track;
    assert t.Settled() == k.Settled() + [s.worker.request];
    assert t.Settled() + [] == t.Settled();
  }

  lemma {:induction false} WorkKeepsOrder(s: State, a: WorkStep)
    requires OrderOk(s) && CanWork(s, a)
    ensures OrderOk(Work(s, a))
  {
    match a
    case PickQueue => PickKeepsOrder(s);
    case Check => CheckKeepsOrder(s);
    case _ => assert Work(s, a).worker.Held() == s.worker.Held();
  }

  predicate WireKept(s: State) { WireOk(s.kind, s.link, s.worker, s.sig.finished) }

  lemma {:induction false} WriteKeepsWire(kind: Kind, l: Link, w: Worker, finished: nat, ok: bool)
    requires WireOk(kind, l, w, finished) && w.Cleared?
    ensures ok ==> WireOk(kind, l.(wire := l.wire + [Wrote(w.request)]),
                          if w.request.answered then Reading(w.request, w.draining) else w.Loop(), finished)
    ensures !ok ==> WireOk(kind, Failed(kind, l, WriteFailed(w.request)), w.Loop(), finished)
  {
    LineSnoc(kind, l.wire, if ok then Wrote(w.request) else WriteFailed(w.request));
  }

  lemma {:induction false} ReadKeepsWire(kind: Kind, l: Link, w: Worker, finished: nat, last: bool)
    requires WireOk(kind, l, w, finished) && w.Reading?
    ensures WireOk(kind, l.(wire := l.wire + [Read(last)]), if last then w.Loop() else w, finished)
    ensures WireOk(kind, Failed(kind, l, ReadFailed), w.Loop(), finished)
  {
    LineSnoc(kind, l.wire, Read(last));
    LineSnoc(kind, l.wire, ReadFailed);
  }

  lemma {:induction false} WorkKeepsWire(s: State, a: WorkStep)
    requires SignalsOk(s.sig, s.worker) && WireKept(s) && CanWork(s, a)
    ensures WireKept(Work(s, a))
  {
    match a
    case Write(ok) => WriteKeepsWire(s.kind, s.link, s.worker, s.sig.finished, ok);
    case ReadMessage(last) => ReadKeepsWire(s.kind, s.link, s.worker, s.sig.finished, last);
    case ReadFail => ReadKeepsWire(s.kind, s.link, s.worker, s.sig.finished, true);
    case _ => assert Work(s, a).link == s.link && Work(s, a).sig.finished == s.sig.finished;
  }

  lemma {:induction false} WorkKeepsSent(s: State, a: WorkStep)
    requires SentOk(s) && CanWork(s, a)
    ensures SentOk(Work(s, a))
  {
    var k, wire := s.track.attempted, s.link.wire;
    assert Tried(wire) + [] == Tried(wire);
    match a
    case Write(ok) => TriedSnoc(wire, if ok then Wrote(s.worker.request) else WriteFailed(s.worker.request));
    case ReadMessage(last) => TriedSnoc(wire, Read(last));
    case ReadFail => TriedSnoc(wire, ReadFailed);
    case _ =>
  }

  lemma {:induction false} WorkKeeps(s: State, a: WorkStep)
    requires Inv(s) && CanWork(s, a)
    ensures Inv(Work(s, a))
  {
    var t := Work(s, a);
    assert SignalsOk(t.sig, t.worker) by { WorkKeepsSignals(s, a); }
    assert OrderOk(t) by { WorkKeepsOrder(s, a); }
    assert WireKept(t) by { WorkKeepsWire(s, a); }
    assert SentOk(t) by { WorkKeepsSent(s, a); }
    assert FatesOk(t.desk, t.track) by { WorkersOnlyWork(s, a); }
  }

  lemma {:induction false} WorkersOnlyWork(s: State, a: WorkStep)
    requires CanWork(s, a)
    ensures Work(s, a).desk == s.desk && Work(s, a).track.accepted == s.track.accepted
  {}

  /** The worker and the closers leave the sending side alone. */
  lemma {:induction false} OthersDoNotSend(s: State)
    ensures forall a | CanWork(s, a) ::
      var t := Work(s, a);
      t.kind == s.kind && t.desk == s.desk && t.track.accepted == s.track.accepted && t.sig.closed == s.sig.closed
    ensures forall a | CanClose(s, a) ::
      var t := Close(s, a); t.kind == s.kind && t.desk == s.desk && t.track == s.track
  {}

  lemma {:induction false} Kept(s: State, a: Action)
    requires Inv(s) && Enabled(s, a)
    ensures Inv(Apply(s, a))
  {
    match a
    case BySender(x) => SendKeeps(s, x);
    case ByCloser(x) => CloseKeeps(s, x);
    case ByWorker(x) => WorkKeeps(s, x);
  }

  lemma {:induction false} InvAlways(s: State, run: seq<Action>)
    requires Inv(s) && Runs(s, run)
    ensures Inv(After(s, run))
    decreases |run|
  {
    if run != [] {
      Kept(s, run[0]);
      InvAlways(Apply(s, run[0]), run[1..]);
    }
  }

  // ---------------------------------------------------------------- safety of every run

  predicate IsError(e: Event) { e.WriteFailed? || e.ReadFailed? }

  /** Responses still owed after a stretch of history. */
  function Owing(wire: seq<Event>): int
    decreases |wire|
  {
    if wire == [] then 0
    else
      var e, before := wire[|wire| - 1], Owing(wire[..|wire| - 1]);
      if e.Wrote? && e.request.answered then before + 1 else if e.Read? && e.last then before - 1 else before
  }

  lemma {:induction false} LineReads(kind: Kind, wire: seq<Event>)
    requires LineOf(kind, wire) != Misused
    ensures LineOf(kind, wire) != Broken ==>
      Owing(wire) == (if LineOf(kind, wire) == Owed then 1 else 0) && forall i :: 0 <= i < |wire| ==> !IsError(wire[i])
    ensures kind.Pg? ==> forall i :: 0 <= i < |wire| - 1 ==> !IsError(wire[i])
    decreases |wire|
  {
    if wire != [] { LineReads(kind, wire[..|wire| - 1]); }
  }

  lemma {:induction false} LinePrefix(kind: Kind, wire: seq<Event>, n: nat)
    requires n <= |wire| && LineOf(kind, wire) != Misused
    ensures LineOf(kind, wire[..n]) != Misused
    decreases |wire|
  {
    if n < |wire| {
      LinePrefix(kind, wire[..|wire| - 1], n);
      assert wire[..|wire| - 1][..n] == wire[..n];
    } else {
      assert wire[..n] == wire;
    }
  }

  /** In every run, a request is written only when no response is owed, unless an error came
      before; and the PostgreSQL worker neither writes nor reads anything after an error. */
  lemma {:induction false} Lockstep(kind: Kind, capacity: nat, run: seq<Action>, i: nat)
    requires Runs(Initial(kind, capacity), run) && i < |After(Initial(kind, capacity), run).link.wire|
    ensures var wire := After(Initial(kind, capacity), run).link.wire;
      && (kind.Pg? && IsError(wire[i]) ==> i == |wire| - 1)
      && (wire[i].Wrote? && (forall j :: 0 <= j < i ==> !IsError(wire[j])) ==> Owing(wire[..i]) == 0)
      && (wire[i].Read? && (forall j :: 0 <= j < i ==> !IsError(wire[j])) ==> Owing(wire[..i]) == 1)
  {
    InitialInv(kind, capacity);
    InvAlways(Initial(kind, capacity), run);
    SameMake(Initial(kind, capacity), run);
    var wire := After(Initial(kind, capacity), run).link.wire;
    LineReads(kind, wire);
    LinePrefix(kind, wire, i);
    LinePrefix(kind, wire, i + 1);
    LineSnoc(kind, wire[..i], wire[i]);
    assert wire[..i + 1] == wire[..i] + [wire[i]];
    LineReads(kind, wire[..i]);
    if forall j :: 0 <= j < i ==> !IsError(wire[j]) { NoErrorNotBroken(kind, wire[..i]); }
  }

  // ---------------------------------------------------------------- past an error

  /** Reads that failed in a stretch of history. */
  function Missed(wire: seq<Event>): nat
    decreases |wire|
  {
    if wire == [] then 0 else Missed(wire[..|wire| - 1]) + if wire[|wire| - 1].ReadFailed? then 1 else 0
  }

  lemma {:induction false} MissedNone(wire: seq<Event>)
    ensures Missed(wire) == 0 <==> forall i :: 0 <= i < |wire| ==> !wire[i].ReadFailed?
    decreases |wire|
  {
    if wire != [] {
      MissedNone(wire[..|wire| - 1]);
      assert forall i :: 0 <= i < |wire| - 1 ==> wire[i] == wire[..|wire| - 1][i];
    }
  }

  predicate Reads(e: Event) { e.Read? || e.ReadFailed? }

  /** At every event one response is owed for each failed read before, and one more if the event
      is itself a read. */
  predicate Dues(wire: seq<Event>)
    decreases |wire|
  {
    wire == [] ||
    var before, e := wire[..|wire| - 1], wire[|wire| - 1];
    Dues(before) && Owing(before) == Missed(before) + if Reads(e) then 1 else 0
  }

  predicate DuesOk(wire: seq<Event>, w: Worker) {
    Dues(wire) && Owing(wire) == Missed(wire) + if w.Reading? then 1 else 0
  }

  lemma {:induction false} DuesSnoc(wire: seq<Event>, e: Event, w: Worker, next: Worker)
    requires DuesOk(wire, w) && (w.Reading? <==> Reads(e))
    requires next.Reading? <==> (e.Wrote? && e.request.answered) || (e.Read? && !e.last)
    ensures DuesOk(wire + [e], next)
  {
    assert (wire + [e])[..|wire|] == wire;
  }

  lemma {:induction false} DuesStep(s: State, a: Action)
    requires Enabled(s, a) && DuesOk(s.link.wire, s.worker)
    ensures DuesOk(Apply(s, a).link.wire, Apply(s, a).worker)
  {
    match a
    case BySender(x) => SendersOnlySend(s, x);
    case ByCloser(x) => ClosersOnlyClose(s, x);
    case ByWorker(x) =>
      var t := Work(s, x);
      match x
      case Write(ok) =>
        var e := if ok then Wrote(s.worker.request) else WriteFailed(s.worker.request);
        DuesSnoc(s.link.wire, e, s.worker, t.worker);
      case ReadMessage(last) => DuesSnoc(s.link.wire, Read(last), s.worker, t.worker);
      case ReadFail => DuesSnoc(s.link.wire, ReadFailed, s.worker, t.worker);
      case _ => assert t.link == s.link && !t.worker.Reading? && !s.worker.Reading?;
  }

  lemma {:induction false} DuesAlways(s: State, run: seq<Action>)
    requires Runs(s, run) && DuesOk(s.link.wire, s.worker)
    ensures DuesOk(After(s, run).link.wire, After(s, run).worker)
    decreases |run|
  {
    if run != [] {
      DuesStep(s, run[0]);
      DuesAlways(Apply(s, run[0]), run[1..]);
    }
  }

  lemma {:induction false} DuesAt(wire: seq<Event>, i: nat)
    requires Dues(wire) && i < |wire|
    ensures Owing(wire[..i]) == Missed(wire[..i]) + if Reads(wire[i]) then 1 else 0
    decreases |wire|
  {
    if i < |wire| - 1 {
      DuesAt(wire[..|wire| - 1], i);
      assert wire[..|wire| - 1][..i] == wire[..i];
    }
  }

  /** Lockstep past errors, exactly: in every run, at every write as many responses are owed as
      reads have failed before it, and one more at every read. So a request is written with no
      response owed if and only if no read has failed; failed writes do not matter. */
  lemma {:induction false} OwedExactly(kind: Kind, capacity: nat, run: seq<Action>, i: nat)
    requires Runs(Initial(kind, capacity), run) && i < |After(Initial(kind, capacity), run).link.wire|
    ensures var wire := After(Initial(kind, capacity), run).link.wire;
      && Owing(wire[..i]) == Missed(wire[..i]) + (if Reads(wire[i]) then 1 else 0)
      && (!Reads(wire[i]) ==> (Owing(wire[..i]) == 0 <==> forall j :: 0 <= j < i ==> !wire[j].ReadFailed?))
  {
    var wire := After(Initial(kind, capacity), run).link.wire;
    DuesAlways(Initial(kind, capacity), run);
    DuesAt(wire, i);
    MissedNone(wire[..i]);
  }

  /** And the MySQL worker does go on: wherever it awaits a response with another request in the
      queue, a failed read is followed by the write of that request while a response is owed. */
  lemma {:induction false} WritesWhileOwed(s: State) returns (run: seq<Action>)
    requires s.kind.MySql? && s.worker.Reading? && s.track.queue != [] && s.sig.force == 0
    requires DuesOk(s.link.wire, s.worker)
    ensures Runs(s, run)
    ensures var wire := After(s, run).link.wire;
      wire == s.link.wire + [ReadFailed] + [Wrote(s.track.queue[0])] && Owing(s.link.wire + [ReadFailed]) > 0
  {
    var fail, pick := ByWorker(ReadFail), ByWorker(PickQueue);
    var check, write := ByWorker(Check), ByWorker(Write(true));
    var s1 := Apply(s, fail);
    var s2 := Apply(s1, pick);
    var s3 := Apply(s2, check);
    RunsOne(s3, write);
    RunsCons(s2, check, [write]);
    RunsCons(s1, pick, [check] + [write]);
    RunsCons(s, fail, [pick] + ([check] + [write]));
    run := [fail] + ([pick] + ([check] + [write]));
    DuesSnoc(s.link.wire, ReadFailed, s.worker, s1.worker);
    assert (s.link.wire + [ReadFailed])[..|s.link.wire|] == s.link.wire;
  }

  lemma {:induction false} Enqueue(s: State, r: Request) returns (run: seq<Action>)
    requires s.kind.MySql? && !s.sig.closed && |s.track.queue| < s.capacity
    ensures Runs(s, run)
    ensures var t := After(s, run);
      t.kind == s.kind && t.capacity == s.capacity && t.sig == s.sig && t.link == s.link && t.worker == s.worker &&
      t.track == s.track.(queue := s.track.queue + [r], accepted := s.track.accepted + [r])
  {
    var start, check, push := BySender(Start(r)), BySender(CheckClosed(r)), BySender(Push(r));
    var s1 := Apply(s, start);
    var s2 := Apply(s1, check);
    RunsOne(s2, push);
    RunsCons(s1, check, [push]);
    RunsCons(s, start, [check] + [push]);
    run := [start] + ([check] + [push]);
  }

  lemma {:induction false} SendOut(s: State) returns (run: seq<Action>)
    requires s.kind.MySql? && s.sig.force == 0 && s.worker.Selecting? && |s.track.queue| == 1
    requires s.track.queue[0].answered
    ensures Runs(s, run)
    ensures var t := After(s, run);
      t.kind == s.kind && t.capacity == s.capacity && t.sig == s.sig && t.worker.Reading? && t.track.queue == [] &&
      t.link.wire == s.link.wire + [Wrote(s.track.queue[0])]
  {
    var pick, check, write := ByWorker(PickQueue), ByWorker(Check), ByWorker(Write(true));
    var s1 := Apply(s, pick);
    var s2 := Apply(s1, check);
    RunsOne(s2, write);
    RunsCons(s1, check, [write]);
    RunsCons(s, pick, [check] + [write]);
    run := [pick] + ([check] + [write]);
  }

  /** Such a state is two Sends away from the start. */
  lemma {:induction false} AwaitsWithMore(start: State, q: Request, r: Request) returns (run: seq<Action>)
    requires start == Initial(MySql, start.capacity) && start.capacity > 0 && q.answered
    ensures Runs(start, run)
    ensures var t := After(start, run);
      t.kind.MySql? && t.worker.Reading? && t.track.queue == [r] && t.sig.force == 0 && t.link.wire == [Wrote(q)]
  {
    var first := Enqueue(start, q);
    var s := After(start, first);
    assert s.track.queue == [q];
    var second := SendOut(s);
    RunsAppend(start, first, second);
    var third := Enqueue(After(s, second), r);
    RunsAppend(start, first + second, third);
    run := first + second + third;
    assert [] + [r] == [r] && [] + [Wrote(q)] == [Wrote(q)];
  }

  lemma {:induction false} WritesWhileOwedReached(start: State, q: Request, r: Request) returns (run: seq<Action>)
    requires start == Initial(MySql, start.capacity) && start.capacity > 0 && q.answered
    ensures Runs(start, run)
    ensures After(start, run).link.wire == [Wrote(q)] + [ReadFailed] + [Wrote(r)]
    ensures Owing([Wrote(q)] + [ReadFailed]) > 0
  {
    var first := AwaitsWithMore(start, q, r);
    DuesAlways(start, first);
    var second := WritesWhileOwed(After(start, first));
    RunsAppend(start, first, second);
    run := first + second;
  }

  lemma {:induction false} NoErrorNotBroken(kind: Kind, wire: seq<Event>)
    requires forall i :: 0 <= i < |wire| ==> !IsError(wire[i])
    ensures LineOf(kind, wire) != Broken
    decreases |wire|
  {
    if wire != [] { NoErrorNotBroken(kind, wire[..|wire| - 1]); }
  }

  /** In every run: no channel is closed twice, the connection is not used once closed, the
      requests written to it are a prefix of those accepted, and each Send has one fate. */
  lemma {:induction false} SafeAlways(kind: Kind, capacity: nat, run: seq<Action>)
    requires Runs(Initial(kind, capacity), run)
    ensures var s := After(Initial(kind, capacity), run);
      && s.sig.drain <= 1 && s.sig.force <= 1 && s.sig.done <= 1
      && (s.worker.Busy() ==> !s.link.connClosed)
      && Tried(s.link.wire) <= s.track.attempted <= s.track.accepted && |s.track.queue| <= capacity
      && s.track.accepted == s.track.Settled() + s.worker.Held() + s.track.queue
      && FatesOk(s.desk, s.track)
  {
    InitialInv(kind, capacity);
    InvAlways(Initial(kind, capacity), run);
    SameMake(Initial(kind, capacity), run);
    SafeState(After(Initial(kind, capacity), run));
  }

  lemma {:induction false} SafeState(s: State)
    requires Inv(s)
    ensures s.sig.drain <= 1 && s.sig.force <= 1 && s.sig.done <= 1 && (s.worker.Busy() ==> !s.link.connClosed)
    ensures Tried(s.link.wire) <= s.track.attempted <= s.track.accepted && |s.track.queue| <= s.capacity
  {
    assert s.track.attempted <= s.track.Settled();
  }

  lemma {:induction false} SameMake(s: State, run: seq<Action>)
    requires Runs(s, run)
    ensures After(s, run).kind == s.kind && After(s, run).capacity == s.capacity
    decreases |run|
  {
    if run != [] { SameMake(Apply(s, run[0]), run[1..]); }
  }

  // ---------------------------------------------------------------- no loss, and when not

  /** Close has latched and no Send is between its check and its enqueue. From here on
      nothing more enters the queue, and the worker has not left requests behind. */
  predicate Sealed(s: State) {
    s.sig.closed && s.desk.passed == multiset{} && (s.worker.Left() && s.sig.force == 0 ==> s.track.queue == [])
  }

  lemma {:induction false} SealedStays(s: State, run: seq<Action>)
    requires Sealed(s) && Runs(s, run)
    ensures Sealed(After(s, run)) && After(s, run).track.accepted == s.track.accepted
    ensures s.sig.force <= After(s, run).sig.force
    decreases |run|
  {
    if run != [] { SealedStays(Apply(s, run[0]), run[1..]); }
  }

  lemma {:induction false} AllSettled(t: State)
    requires Inv(t) && (Sealed(t) || t.capacity == 0) && t.sig.finished > 0 && t.sig.force == 0
    ensures t.track.queue == [] && t.track.accepted == t.track.attempted + t.track.skipped
    ensures t.track.attempted == Tried(t.link.wire)
    ensures t.kind.MySql? ==> t.track.attempted == t.track.accepted
  {
    var k := t.track;
    assert k.abandoned == [] && t.worker.Held() == [];
    assert k.Settled() == k.attempted + k.skipped;
    assert k.Settled() + [] + [] == k.Settled();
    assert k.attempted + [] == k.attempted;
    assert Tried(t.link.wire) + [] == Tried(t.link.wire);
  }

  /** No loss: if no Send stands between its check and its enqueue when Close latches, as when
      both run on one goroutine, and the drain does not time out, then once Close returns the
      queue is empty and every accepted request has been dealt with, in order: written to the
      connection, or passed over on a dead PostgreSQL connection. */
  lemma {:induction false} NoLoss(s: State, rest: seq<Action>)
    requires Inv(s) && !s.sig.closed && s.desk.passed == multiset{} && Runs(Close(s, Latch), rest)
    ensures var t := After(Close(s, Latch), rest);
      t.sig.finished > 0 && t.sig.force == 0 ==>
        && t.track.queue == [] && t.track.accepted == s.track.accepted == Tried(t.link.wire) + t.track.skipped
        && (t.kind.MySql? ==> Tried(t.link.wire) == t.track.accepted)
  {
    CloseKeeps(s, Latch);
    InvAlways(Close(s, Latch), rest);
    SealedStays(Close(s, Latch), rest);
    var t := After(Close(s, Latch), rest);
    if t.sig.finished > 0 && t.sig.force == 0 { AllSettled(t); }
  }

  function Delivered(wire: seq<Event>): seq<Request>
    decreases |wire|
  {
    if wire == [] then []
    else
      var e := wire[|wire| - 1];
      Delivered(wire[..|wire| - 1]) + if e.Wrote? then [e.request] else []
  }

  /** Without I/O errors all writes that were tried succeeded. */
  lemma {:induction false} AllDelivered(wire: seq<Event>)
    requires forall i :: 0 <= i < |wire| ==> !IsError(wire[i])
    ensures Delivered(wire) == Tried(wire)
    decreases |wire|
  {
    if wire != [] { AllDelivered(wire[..|wire| - 1]); }
  }

  /** What the worker does next when nothing interferes and all I/O succeeds. */
  function NextMove(s: State): WorkStep {
    match s.worker
    case Selecting => PickDrain
    case Draining => if s.sig.force > 0 then PickForce else if s.track.queue == [] then DrainDone else PickQueue
    case Holding(_, _) => Check
    case Cleared(_, _) => Write(true)
    case Reading(_, _) => ReadMessage(true)
    case Leaving => Announce
    case Announced => Leave
    case Gone => Leave
  }

  /** Moves left in the worker; only another enqueue adds to them. */
  function Weight(s: State): nat {
    5 * |s.track.queue| +
    match s.worker
    case Gone => 0
    case Announced => 1
    case Leaving => 2
    case Draining => 3
    case Selecting => 4
    case Reading(_, _) => 5
    case Cleared(_, _) => 6
    case Holding(_, _) => 7
  }

  /** Once told to drain, the worker can always move until it is gone. */
  lemma {:induction false} DrainProgress(s: State)
    requires s.sig.drain > 0 && !s.worker.Gone?
    ensures CanWork(s, NextMove(s)) && Weight(Work(s, NextMove(s))) < Weight(s)
  {}

  lemma {:induction false} RunsAppend(s: State, a: seq<Action>, b: seq<Action>)
    requires Runs(s, a) && Runs(After(s, a), b)
    ensures Runs(s, a + b) && After(s, a + b) == After(After(s, a), b)
    decreases |a|
  {
    if a == [] {
      assert a + b == b;
    } else {
      RunsAppend(Apply(s, a[0]), a[1..], b);
      RunsCons(s, a[0], a[1..] + b);
      assert [a[0]] + (a[1..] + b) == a + b;
    }
  }

  lemma {:induction false} RunsCons(s: State, a: Action, rest: seq<Action>)
    requires Enabled(s, a) && Runs(Apply(s, a), rest)
    ensures Runs(s, [a] + rest) && After(s, [a] + rest) == After(Apply(s, a), rest)
  {
    assert ([a] + rest)[1..] == rest;
  }

  lemma {:induction false} RunsOne(s: State, a: Action)
    requires Enabled(s, a)
    ensures Runs(s, [a]) && After(s, [a]) == Apply(s, a)
  {
    assert [a][1..] == [];
    assert Runs(Apply(s, a), [a][1..]);
  }

  /** The worker left alone to drain: it empties the queue and goes, and nothing else moves. */
  lemma {:induction false} DrainAlone(s: State) returns (run: seq<Action>)
    requires s.sig.drain > 0 && s.sig.force == 0 && (s.worker.Left() ==> s.track.queue == [])
    requires s.worker.Announced? || s.worker.Gone? ==> s.sig.done > 0
    ensures Runs(s, run)
    ensures var t := After(s, run);
      && t.worker.Gone? && t.track.queue == [] && t.sig.(done := 0) == s.sig.(done := 0) && t.desk == s.desk
      && t.sig.done > 0 && t.capacity == s.capacity && t.track.accepted == s.track.accepted
    decreases Weight(s)
  {
    if s.worker.Gone? {
      run := [];
    } else {
      DrainProgress(s);
      var a := ByWorker(NextMove(s));
      var more := DrainAlone(Apply(s, a));
      run := [a] + more;
      assert run[1..] == more;
    }
  }

  /** The race in the other case: if a Send stands between its check and its enqueue when
      Close latches, there is a run without a timeout in which Close returns and that request
      is then accepted, after the worker is gone. */
  lemma {:induction false} RaceLoses(s: State, r: Request) returns (run: seq<Action>)
    requires Inv(s) && !s.sig.closed && r in s.desk.passed && s.capacity > 0
    ensures Runs(Close(s, Latch), run)
    ensures var t := After(Close(s, Latch), run);
      && t.sig.finished > 0 && t.sig.force == 0 && t.worker.Gone?
      && t.track.queue == [r] && t.track.accepted == s.track.accepted + [r]
  {
    var signal, see, join, push := ByCloser(SignalDrain), ByCloser(SeeDone), ByCloser(Join), BySender(Push(r));
    var s1 := Close(s, Latch);
    RunsOne(s1, signal);
    var s2 := Apply(s1, signal);
    var drain := DrainAlone(s2);
    RunsAppend(s1, [signal], drain);
    var s3 := After(s2, drain);
    RunsOne(s3, see);
    RunsAppend(s1, [signal] + drain, [see]);
    var s4 := Apply(s3, see);
    RunsOne(s4, join);
    RunsAppend(s1, [signal] + drain + [see], [join]);
    var s5 := Apply(s4, join);
    RunsOne(s5, push);
    RunsAppend(s1, [signal] + drain + [see] + [join], [push]);
    run := [signal] + drain + [see] + [join] + [push];
    assert [] + [r] == [r];
  }

  /** If a Close has returned without a timeout, nothing is left in the queue and every accepted
      request was sent, or passed over on a dead PostgreSQL connection. */
  predicate Lossless(t: State) {
    t.sig.finished > 0 && t.sig.force == 0 ==>
      t.track.queue == [] && t.track.accepted == t.track.attempted + t.track.skipped
  }

  /** A Close that is about to latch is certain to lose nothing, short of a drain timeout,
      exactly when the channel is unbuffered or no Send stands between its check and its enqueue. */
  lemma {:induction false} NoLossExactly(s: State)
    requires Inv(s) && !s.sig.closed
    ensures s.capacity == 0 || s.desk.passed == multiset{} <==>
      forall run: seq<Action> | Runs(Close(s, Latch), run) :: Lossless(After(Close(s, Latch), run))
  {
    if s.capacity == 0 || s.desk.passed == multiset{} {
      forall run: seq<Action> | Runs(Close(s, Latch), run) ensures Lossless(After(Close(s, Latch), run)) {
        var t := After(Close(s, Latch), run);
        CloseKeeps(s, Latch);
        InvAlways(Close(s, Latch), run);
        SameMake(Close(s, Latch), run);
        if s.desk.passed == multiset{} { SealedStays(Close(s, Latch), run); }
        if t.sig.finished > 0 && t.sig.force == 0 { AllSettled(t); }
      }
    } else {
      var r :| r in s.desk.passed;
      var run := RaceLoses(s, r);
    }
  }

  // ---------------------------------------------------------------- bounds

  function Count(run: seq<Action>, p: Action -> bool): nat
    decreases |run|
  {
    if run == [] then 0 else (if p(run[0]) then 1 else 0) + Count(run[1..], p)
  }

  /** A worker step other than reading one more message of an unfinished response. */
  predicate IsMove(a: Action) { a.ByWorker? && a.work != ReadMessage(false) }
  predicate IsPush(a: Action) { a.BySender? && (a.send.Push? || a.send.HandOver?) }
  predicate IsWrite(a: Action) { a.ByWorker? && a.work.Write? }

  /** Termination: in any run the worker makes no more moves than its weight at the start,
      plus five for each enqueue on the way. */
  lemma {:induction false} MovesBounded(s: State, run: seq<Action>)
    requires Runs(s, run)
    ensures Count(run, IsMove) + Weight(After(s, run)) <= Weight(s) + 5 * Count(run, IsPush)
    decreases |run|
  {
    if run != [] {
      WeightStep(s, run[0]);
      MovesBounded(Apply(s, run[0]), run[1..]);
    }
  }

  lemma {:induction false} WeightStep(s: State, a: Action)
    requires Enabled(s, a)
    ensures (if IsMove(a) then 1 else 0) + Weight(Apply(s, a)) <= Weight(s) + (if IsPush(a) then 5 else 0)
  {}

  /** After a forced close at most one more request is written: the one already cleared. */
  lemma {:induction false} ForcedCloseStops(s: State, run: seq<Action>)
    requires s.sig.force > 0 && Runs(s, run)
    ensures Count(run, IsWrite) <= (if s.worker.Cleared? then 1 else 0)
    ensures After(s, run).track.attempted == s.track.attempted
    decreases |run|
  {
    if run != [] { ForcedCloseStops(Apply(s, run[0]), run[1..]); }
  }
}
