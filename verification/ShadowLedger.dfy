/** The books of a MySQL client session: every query counted on the primary is accounted for
    on the shadow side. The proxy goroutine feeds the worker of `ShadowLifecycle`; worker
    and closer go on taking their own steps in between. */
module ShadowLedger {
  import opened ShadowLifecycle

  /** The proxy goroutine: between commands; about to write to the primary; inside Send;
      out of its loop. */
  datatype Proxy = Waiting | Writing(request: Request) | Offering(request: Request) | Over

  /** `primary`: queries counted when read; `failed`: queries whose write to the primary
      failed; `filtered`: queries kept from the shadow by the filter. */
  datatype Books = Books(proxy: Proxy, primary: nat, failed: nat, filtered: nat, shadow: State)

  function Opened(kind: Kind, capacity: nat): Books { Books(Waiting, 0, 0, 0, Initial(kind, capacity)) }

  function One(r: Request): nat { if r.countable then 1 else 0 }

  datatype Entry =
    | Receive(request: Request)
    | PrimaryWriteFails
    | Filter
    | SkipQuit
    | Offer
    | SendGoesOn
    | SendHandsOver
    | Hangup
    | Worker(work: WorkStep)
    | Closer(close: CloseStep)

  /** The next step of the Send call that the proxy is inside of. */
  function SendNext(b: Books): SendStep
    requires b.proxy.Offering?
  {
    if b.proxy.request in b.shadow.desk.entered then CheckClosed(b.proxy.request) else Push(b.proxy.request)
  }

  predicate Possible(b: Books, e: Entry) {
    match e
    case Receive(_) => b.proxy.Waiting?
    case PrimaryWriteFails => b.proxy.Writing?
    case Filter => b.proxy.Writing? && b.proxy.request.countable
    case SkipQuit => b.proxy.Writing? && !b.proxy.request.countable
    case Offer => b.proxy.Writing?
    case SendGoesOn => b.proxy.Offering? && CanSend(b.shadow, SendNext(b))
    case SendHandsOver => b.proxy.Offering? && CanSend(b.shadow, HandOver(b.proxy.request))
    case Hangup => b.proxy.Waiting?
    case Worker(x) => CanWork(b.shadow, x)
    case Closer(x) => b.proxy.Over? && CanClose(b.shadow, x)
  }

  function Post(b: Books, e: Entry): Books
    requires Possible(b, e)
  {
    match e
    case Receive(r) => b.(proxy := Writing(r), primary := b.primary + One(r))
    case PrimaryWriteFails => b.(proxy := Over, failed := b.failed + One(b.proxy.request))
    case Filter => b.(proxy := Waiting, filtered := b.filtered + 1)
    case SkipQuit => b.(proxy := Over)
    case Offer => b.(proxy := Offering(b.proxy.request), shadow := Send(b.shadow, Start(b.proxy.request)))
    case SendGoesOn =>
      var x := SendNext(b);
      b.(proxy := if x.Push? || b.shadow.sig.closed then Waiting else b.proxy, shadow := Send(b.shadow, x))
    case SendHandsOver => b.(proxy := Waiting, shadow := Send(b.shadow, HandOver(b.proxy.request)))
    case Hangup => b.(proxy := Over)
    case Worker(x) => b.(shadow := Work(b.shadow, x))
    case Closer(x) => b.(shadow := Close(b.shadow, x))
  }

  predicate Recorded(b: Books, run: seq<Entry>)
    decreases |run|
  {
    run == [] || (Possible(b, run[0]) && Recorded(Post(b, run[0]), run[1..]))
  }

  function Balance(b: Books, run: seq<Entry>): Books
    requires Recorded(b, run)
    decreases |run|
  {
    if run == [] then b else Balance(Post(b, run[0]), run[1..])
  }

  // ---------------------------------------------------------------- counting

  function Queries(s: seq<Request>): nat
    decreases |s|
  {
    if |s| == 0 then 0 else Queries(s[..|s| - 1]) + One(s[|s| - 1])
  }

  lemma {:induction false} QueriesSnoc(s: seq<Request>, r: Request)
    ensures Queries(s + [r]) == Queries(s) + One(r)
  {
    assert (s + [r])[..|s|] == s;
  }

  lemma {:induction false} QueriesAppend(a: seq<Request>, b: seq<Request>)
    ensures Queries(a + b) == Queries(a) + Queries(b)
    decreases |b|
  {
    if b == [] {
      assert a + b == a;
    } else {
      QueriesAppend(a, b[..|b| - 1]);
      assert (a + b)[..|a + b| - 1] == a + b[..|b| - 1];
    }
  }

  lemma {:induction false} AllQueries(s: seq<Request>)
    ensures Queries(s) <= |s|
    ensures Queries(s) == |s| <==> forall r :: r in s ==> r.countable
    decreases |s|
  {
    if s != [] {
      AllQueries(s[..|s| - 1]);
      assert s == s[..|s| - 1] + [s[|s| - 1]];
    }
  }

  /** The query the proxy has read but not yet handed to anyone. */
  function InHand(p: Proxy): nat { if p.Writing? || p.Offering? then One(p.request) else 0 }

  predicate Balanced(b: Books) {
    b.primary == b.failed + b.filtered + InHand(b.proxy) +
      Queries(b.shadow.track.accepted) + Queries(b.shadow.desk.refused)
  }

  /** Exactly one Send call is under way, for `r`. */
  predicate OneOf(d: Desk, r: Request) {
    (d.entered == multiset{r} && d.passed == multiset{}) || (d.entered == multiset{} && d.passed == multiset{r})
  }

  /** Only the proxy sends, Close comes after its loop, and at most one write to the primary fails. */
  predicate InCharge(b: Books) {
    var d := b.shadow.desk;
    && b.shadow.kind.MySql?
    && (!b.proxy.Over? ==> !b.shadow.sig.closed)
    && (if b.proxy.Offering? then OneOf(d, b.proxy.request) else d.entered == d.passed == multiset{})
    && b.failed <= (if b.proxy.Over? then 1 else 0)
  }

  predicate BooksOk(b: Books) { Inv(b.shadow) && InCharge(b) && Balanced(b) }

  /** Entries by the worker or a closer. */
  lemma {:induction false} ShadowEntryKeeps(b: Books, e: Entry)
    requires BooksOk(b) && Possible(b, e) && (e.Worker? || e.Closer?)
    ensures BooksOk(Post(b, e))
  {
    OthersDoNotSend(b.shadow);
    if e.Worker? {
      WorkKeeps(b.shadow, e.work);
    } else {
      CloseKeeps(b.shadow, e.close);
    }
  }

  /** Entries by the proxy outside Send: the shadow does not see them. */
  lemma {:induction false} ProxyEntryKeeps(b: Books, e: Entry)
    requires BooksOk(b) && Possible(b, e)
    requires e.Receive? || e.PrimaryWriteFails? || e.Filter? || e.SkipQuit? || e.Hangup?
    ensures BooksOk(Post(b, e))
  {}

  /** The three moves of a Send call made by the only sender before any Close. */
  lemma {:induction false} StartAlone(s: State, r: Request)
    requires s.kind.MySql? && s.desk.entered == s.desk.passed == multiset{}
    ensures var t := Send(s, Start(r));
      t.kind == s.kind && t.sig == s.sig && OneOf(t.desk, r) && t.track == s.track && t.desk.refused == s.desk.refused
  {
    assert multiset{} + multiset{r} == multiset{r};
  }

  lemma {:induction false} CheckAlone(s: State, r: Request)
    requires !s.sig.closed && s.desk.entered == multiset{r} && s.desk.passed == multiset{}
    ensures var t := Send(s, CheckClosed(r));
      t.kind == s.kind && t.sig == s.sig && OneOf(t.desk, r) && t.track == s.track && t.desk.refused == s.desk.refused
  {
    assert multiset{r} - multiset{r} == multiset{} && multiset{} + multiset{r} == multiset{r};
  }

  lemma {:induction false} PushAlone(s: State, r: Request)
    requires s.desk.entered == multiset{} && s.desk.passed == multiset{r}
    ensures var t := Send(s, Push(r));
      && t.kind == s.kind && t.sig == s.sig && t.desk.entered == t.desk.passed == multiset{}
      && Queries(t.track.accepted) + Queries(t.desk.refused) ==
         Queries(s.track.accepted) + Queries(s.desk.refused) + One(r)
  {
    assert multiset{r} - multiset{r} == multiset{};
    QueriesSnoc(s.track.accepted, r);
    QueriesSnoc(s.desk.refused, r);
  }

  lemma {:induction false} OfferKeeps(b: Books)
    requires BooksOk(b) && Possible(b, Offer)
    ensures BooksOk(Post(b, Offer))
  {
    SendKeeps(b.shadow, Start(b.proxy.request));
    StartAlone(b.shadow, b.proxy.request);
  }

  /** The closed check moves nothing that is counted. */
  lemma {:induction false} CheckCounts(b: Books)
    requires InCharge(b) && Balanced(b) && Possible(b, SendGoesOn) && SendNext(b).CheckClosed?
    ensures InCharge(Post(b, SendGoesOn)) && Balanced(Post(b, SendGoesOn))
  {
    CheckAlone(b.shadow, b.proxy.request);
  }

  lemma {:induction false} CheckEntryKeeps(b: Books)
    requires BooksOk(b) && Possible(b, SendGoesOn) && SendNext(b).CheckClosed?
    ensures BooksOk(Post(b, SendGoesOn))
  {
    CheckCounts(b);
    SendKeeps(b.shadow, CheckClosed(b.proxy.request));
  }

  lemma {:induction false} PushCounts(b: Books)
    requires InCharge(b) && Balanced(b) && Possible(b, SendGoesOn) && SendNext(b).Push?
    ensures InCharge(Post(b, SendGoesOn)) && Balanced(Post(b, SendGoesOn))
  {
    PushAlone(b.shadow, b.proxy.request);
  }

  lemma {:induction false} PushEntryKeeps(b: Books)
    requires BooksOk(b) && Possible(b, SendGoesOn) && SendNext(b).Push?
    ensures BooksOk(Post(b, SendGoesOn))
  {
    PushCounts(b);
    SendKeeps(b.shadow, Push(b.proxy.request));
  }

  lemma {:induction false} HandOverAlone(s: State, r: Request)
    requires s.desk.entered == multiset{} && s.desk.passed == multiset{r} && CanSend(s, HandOver(r))
    ensures var t := Send(s, HandOver(r));
      && t.kind == s.kind && t.sig == s.sig && t.desk.entered == t.desk.passed == multiset{}
      && Queries(t.track.accepted) == Queries(s.track.accepted) + One(r) && t.desk.refused == s.desk.refused
  {
    assert multiset{r} - multiset{r} == multiset{};
    QueriesSnoc(s.track.accepted, r);
  }

  lemma {:induction false} HandOverCounts(b: Books)
    requires InCharge(b) && Balanced(b) && Possible(b, SendHandsOver)
    ensures InCharge(Post(b, SendHandsOver)) && Balanced(Post(b, SendHandsOver))
  {
    HandOverAlone(b.shadow, b.proxy.request);
  }

  lemma {:induction false} HandOverEntryKeeps(b: Books)
    requires BooksOk(b) && Possible(b, SendHandsOver)
    ensures BooksOk(Post(b, SendHandsOver))
  {
    HandOverCounts(b);
    SendKeeps(b.shadow, HandOver(b.proxy.request));
  }

  lemma {:induction false} NoQueries(s: seq<Request>)
    requires |s| == 0
    ensures Queries(s) == 0
  {}

  lemma {:induction false} OpenedOk(kind: Kind, capacity: nat)
    requires kind.MySql?
    ensures BooksOk(Opened(kind, capacity))
  {
    InitialInv(kind, capacity);
    var b := Opened(kind, capacity);
    NoQueries(b.shadow.track.accepted);
    NoQueries(b.shadow.desk.refused);
    assert Balanced(b);
  }

  lemma {:induction false} BooksOkAlways(b: Books, run: seq<Entry>)
    requires BooksOk(b) && Recorded(b, run)
    ensures BooksOk(Balance(b, run))
    decreases |run|
  {
    if run != [] {
      var e := run[0];
      if e.Worker? || e.Closer? {
        ShadowEntryKeeps(b, e);
      } else if e.Offer? {
        OfferKeeps(b);
      } else if e.SendGoesOn? {
        if SendNext(b).Push? { PushEntryKeeps(b); } else { CheckEntryKeeps(b); }
      } else if e.SendHandsOver? {
        HandOverEntryKeeps(b);
      } else {
        ProxyEntryKeeps(b, e);
      }
      BooksOkAlways(Post(b, e), run[1..]);
    }
  }

  /** Queries that entered the queue but were not, or not yet, sent to the shadow. */
  function Outstanding(s: State): nat {
    Queries(s.track.queue) + Queries(s.worker.Held()) + Queries(s.track.abandoned)
  }

  lemma {:induction false} AcceptedSplits(s: State)
    requires OrderOk(s) && s.kind.MySql?
    ensures Queries(s.track.accepted) == Queries(s.track.attempted) + Outstanding(s)
  {
    var k, w := s.track, s.worker;
    assert k.Settled() == k.attempted + k.abandoned;
    QueriesAppend(k.attempted, k.abandoned);
    QueriesAppend(k.Settled(), w.Held());
    QueriesAppend(k.Settled() + w.Held(), k.queue);
  }

  /** The ledger: in every run from consistent books, as a session opens with, queries counted on
      the primary are those counted on the shadow, those filtered, those dropped on a full queue,
      those outstanding, and at most one that is in the proxy's hands or was lost to a failed
      write to the primary. */
  lemma {:induction false} Ledger(start: Books, run: seq<Entry>)
    requires BooksOk(start) && Recorded(start, run)
    ensures var b := Balance(start, run);
      var rest := InHand(b.proxy) + b.failed;
      && rest <= 1
      && b.primary == Queries(b.shadow.track.attempted) + b.filtered + Queries(b.shadow.desk.refused)
                               + Outstanding(b.shadow) + rest
  {
    BooksOkAlways(start, run);
    LedgerOf(Balance(start, run));
  }

  lemma {:induction false} LedgerOf(b: Books)
    requires BooksOk(b)
    ensures var rest := InHand(b.proxy) + b.failed;
      && rest <= 1
      && b.primary == Queries(b.shadow.track.attempted) + b.filtered + Queries(b.shadow.desk.refused)
                               + Outstanding(b.shadow) + rest
  {
    AcceptedSplits(b.shadow);
  }

  /** The documented parity, primary = shadow + filtered + queue drops, holds exactly when the
      queries that are outstanding or in hand are as many as the dropped commands that are not
      queries; so once nothing is outstanding, exactly when only queries were dropped. */
  lemma {:induction false} ParityExactly(start: Books, run: seq<Entry>)
    requires BooksOk(start) && Recorded(start, run)
    ensures var b := Balance(start, run);
      var rest := Outstanding(b.shadow) + InHand(b.proxy) + b.failed;
      var parity := b.primary == Queries(b.shadow.track.attempted) + b.filtered + |b.shadow.desk.refused|;
      && (parity <==> rest == |b.shadow.desk.refused| - Queries(b.shadow.desk.refused))
      && (rest == 0 ==> (parity <==> forall r :: r in b.shadow.desk.refused ==> r.countable))
  {
    Ledger(start, run);
    AllQueries(Balance(start, run).shadow.desk.refused);
  }

  // ---------------------------------------------------------------- a session without parity

  lemma {:induction false} OneMore(b: Books, run: seq<Entry>, e: Entry)
    requires Recorded(b, run) && Possible(Balance(b, run), e)
    ensures Recorded(b, run + [e]) && Balance(b, run + [e]) == Post(Balance(b, run), e)
    decreases |run|
  {
    if run == [] {
      assert run + [e] == [e] && [e][1..] == [];
      assert Recorded(Post(b, e), [e][1..]);
    } else {
      OneMore(Post(b, run[0]), run[1..], e);
      assert (run + [e])[1..] == run[1..] + [e] && (run + [e])[0] == run[0];
    }
  }

  /** Nobody is in the middle of anything. */
  predicate Idle(b: Books) {
    && b.proxy.Waiting? && b.failed == 0 && b.shadow.kind.MySql? && !b.shadow.link.dead && b.shadow.worker.Selecting?
    && !b.shadow.sig.closed && b.shadow.sig.force == 0 && b.shadow.desk.entered == b.shadow.desk.passed == multiset{}
  }

  /** A command received and offered, with the worker standing still. */
  lemma {:induction false} OfferOne(start: Books, run: seq<Entry>, r: Request) returns (more: seq<Entry>)
    requires Recorded(start, run) && Idle(Balance(start, run))
    ensures Recorded(start, more) && Idle(Balance(start, more))
    ensures var b, c := Balance(start, run), Balance(start, more);
      var room := |b.shadow.track.queue| < b.shadow.capacity;
      && c.shadow.capacity == b.shadow.capacity
      && c.shadow.track.queue == (if room then b.shadow.track.queue + [r] else b.shadow.track.queue)
      && c.shadow.desk.refused == (if room then b.shadow.desk.refused else b.shadow.desk.refused + [r])
  {
    more := run + [Receive(r)];
    OneMore(start, run, Receive(r));
    StartAlone(Balance(start, more).shadow, r);
    OneMore(start, more, Offer);
    more := more + [Offer];
    more := CheckAndPush(start, more, r);
  }

  lemma {:induction false} CheckAndPush(start: Books, run: seq<Entry>, r: Request) returns (more: seq<Entry>)
    requires Recorded(start, run)
    requires var b := Balance(start, run);
      b.proxy == Offering(r) && b.shadow.desk.entered == multiset{r} &&
      b.shadow.desk.passed == multiset{} && Idle(Rested(b))
    ensures Recorded(start, more) && Idle(Balance(start, more))
    ensures var b, c := Balance(start, run), Balance(start, more);
      var room := |b.shadow.track.queue| < b.shadow.capacity;
      && c.shadow.capacity == b.shadow.capacity
      && c.shadow.track.queue == (if room then b.shadow.track.queue + [r] else b.shadow.track.queue)
      && c.shadow.desk.refused == (if room then b.shadow.desk.refused else b.shadow.desk.refused + [r])
  {
    CheckAlone(Balance(start, run).shadow, r);
    OneMore(start, run, SendGoesOn);
    more := run + [SendGoesOn];
    PushAlone(Balance(start, more).shadow, r);
    OneMore(start, more, SendGoesOn);
    more := more + [SendGoesOn];
  }

  /** The books as they would be without the Send call under way. */
  function Rested(b: Books): Books {
    b.(proxy := Waiting, shadow := b.shadow.(desk := b.shadow.desk.(entered := multiset{}, passed := multiset{})))
  }

  /** A full queue of commands that are not queries, and one more, which is dropped. */
  lemma {:induction false} FillQueue(start: Books, r: Request, n: nat) returns (run: seq<Entry>)
    requires Idle(start) && start.shadow.track.queue == [] && n <= start.shadow.capacity
    ensures Recorded(start, run)
    ensures var b := Balance(start, run);
      && Idle(b) && b.shadow.capacity == start.shadow.capacity && |b.shadow.track.queue| == n
      && b.shadow.desk.refused == start.shadow.desk.refused && forall x :: x in b.shadow.track.queue ==> x == r
  {
    if n == 0 {
      run := [];
    } else {
      run := FillQueue(start, r, n - 1);
      run := OfferOne(start, run, r);
    }
  }

  /** The worker deals with a command that has no response. */
  lemma {:induction false} ProcessOne(start: Books, run: seq<Entry>) returns (more: seq<Entry>)
    requires Recorded(start, run) && Idle(Balance(start, run)) && Balance(start, run).shadow.track.queue != []
    requires !Balance(start, run).shadow.track.queue[0].answered
    ensures Recorded(start, more) && Idle(Balance(start, more))
    ensures var b, c := Balance(start, run), Balance(start, more);
      c.shadow.track.queue == b.shadow.track.queue[1..] && c.shadow.desk.refused == b.shadow.desk.refused
  {
    OneMore(start, run, Worker(PickQueue));
    more := run + [Worker(PickQueue)];
    OneMore(start, more, Worker(Check));
    more := more + [Worker(Check)];
    OneMore(start, more, Worker(Write(true)));
    more := more + [Worker(Write(true))];
  }

  lemma {:induction false} ProcessAll(start: Books, run: seq<Entry>) returns (more: seq<Entry>)
    requires Recorded(start, run) && Idle(Balance(start, run))
    requires forall x :: x in Balance(start, run).shadow.track.queue ==> !x.answered
    ensures Recorded(start, more) && Idle(Balance(start, more)) && Balance(start, more).shadow.track.queue == []
    ensures Balance(start, more).shadow.desk.refused == Balance(start, run).shadow.desk.refused
    decreases |Balance(start, run).shadow.track.queue|
  {
    more := run;
    if Balance(start, run).shadow.track.queue != [] {
      more := ProcessOne(start, run);
      more := ProcessAll(start, more);
    }
  }

  lemma {:induction false} DropOneCommand(start: Books, r: Request) returns (run: seq<Entry>)
    requires Idle(start) && start.shadow.track.queue == [] && start.shadow.desk.refused == [] && !r.answered
    ensures Recorded(start, run)
    ensures var b := Balance(start, run); Idle(b) && b.shadow.track.queue == [] && b.shadow.desk.refused == [r]
  {
    run := FillQueue(start, r, start.shadow.capacity);
    run := OfferOne(start, run, r);
    run := ProcessAll(start, run);
  }

  lemma {:induction false} NoParity(b: Books, r: Request)
    requires BooksOk(b) && Idle(b) && b.shadow.track.queue == [] && b.shadow.desk.refused == [r] && !r.countable
    ensures Outstanding(b.shadow) == 0
    ensures b.primary != Queries(b.shadow.track.attempted) + b.filtered + |b.shadow.desk.refused|
  {
    LedgerOf(b);
    NoQueries(b.shadow.track.queue);
    NoQueries(b.shadow.worker.Held());
    NoQueries(b.shadow.track.abandoned);
    AllQueries(b.shadow.desk.refused);
    assert r in b.shadow.desk.refused;
  }

  /** Where parity fails: for every queue size there is a session at whose end nobody is in the
      middle of anything, the queue is empty, nothing is outstanding, and the documented equation
      does not hold, because one command that is not a query was dropped. */
  lemma {:induction false} ParityFails(start: Books, r: Request) returns (run: seq<Entry>)
    requires start == Opened(MySql, start.shadow.capacity) && !r.countable && !r.answered
    ensures Recorded(start, run)
    ensures var b := Balance(start, run);
      && Idle(b) && b.shadow.track.queue == [] && Outstanding(b.shadow) == 0 && b.shadow.desk.refused == [r]
      && b.primary != Queries(b.shadow.track.attempted) + b.filtered + |b.shadow.desk.refused|
  {
    OpenedOk(start.shadow.kind, start.shadow.capacity);
    run := DropOneCommand(start, r);
    BooksOkAlways(start, run);
    NoParity(Balance(start, run), r);
  }
}
