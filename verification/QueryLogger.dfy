/** The batching loop of the query logger: entries go from a bounded channel into a batch that
    is reused in place, and from there to storage. Nothing is lost, doubled or reordered. */
module QueryLogger {
  import opened Network

  // ---------------------------------------------------------------- the loop on values

  datatype Mode = Running | Draining | Stopped

  datatype Cause = Full | Timer | Final

  /** One write to storage. */
  datatype Flush<T> = Flush(cause: Cause, entries: seq<T>)

  /** What can happen next: some goroutine logs, or the loop's select takes a branch. */
  datatype Move<T> = Arrive(entry: T) | Receive | Tick | Cancel | DrainOne | DrainEnd

  /** The channel, the batch the loop holds, and everything that happened: entries accepted,
      batches written, entries that arrived after the loop had ended. */
  datatype State<T> = State(batchSize: nat, bufferSize: nat, channel: seq<T>, batch: seq<T>, mode: Mode,
                            accepted: seq<T>, flushes: seq<Flush<T>>, late: seq<T>)
  {
    /** A non-empty batch is written; the slice starts again empty. */
    function Flushed(cause: Cause): State<T> {
      if batch == [] then this else this.(batch := [], flushes := flushes + [Flush(cause, batch)])
    }
    function Taken(): State<T>
      requires channel != []
    {
      this.(channel := channel[1..], batch := batch + [channel[0]])
    }
  }

  /** A branch of the select that is not ready is not taken. */
  predicate Ready<T>(s: State<T>, m: Move<T>) {
    match m
    case Arrive(_) => |s.channel| < s.bufferSize
    case Receive => s.mode == Running && s.channel != []
    case Tick => s.mode == Running
    case Cancel => s.mode == Running
    case DrainOne => s.mode == Draining && s.channel != []
    case DrainEnd => s.mode == Draining && s.channel == []
  }

  function Step<T>(s: State<T>, m: Move<T>): State<T> {
    if !Ready(s, m) then s
    else
      match m
      case Arrive(entry) =>
        s.(channel := s.channel + [entry], accepted := s.accepted + [entry],
           late := if s.mode == Stopped then s.late + [entry] else s.late)
      case Receive =>
        var t := s.Taken();
        if |t.batch| >= t.batchSize then t.Flushed(Full) else t
      case Tick => s.Flushed(Timer)
      case Cancel => s.(mode := Draining)
      case DrainOne => s.Taken()
      case DrainEnd => s.Flushed(Final).(mode := Stopped)
  }

  function Fold<T>(s: State<T>, schedule: seq<Move<T>>): State<T>
    decreases |schedule|
  {
    if schedule == [] then s else Step(Fold(s, schedule[..|schedule| - 1]), schedule[|schedule| - 1])
  }

  // ---------------------------------------------------------------- conservation

  function Written<T>(flushes: seq<Flush<T>>): seq<T>
    decreases |flushes|
  {
    if flushes == [] then [] else Written(flushes[..|flushes| - 1]) + flushes[|flushes| - 1].entries
  }

  lemma {:induction false} WrittenSnoc<T>(flushes: seq<Flush<T>>, f: Flush<T>)
    ensures Written(flushes + [f]) == Written(flushes) + f.entries
  {
    assert (flushes + [f])[..|flushes|] == flushes;
  }

  /** Every accepted entry is written, in the batch or in the channel, in the order of arrival. */
  predicate Conserved<T(==)>(s: State<T>) { s.accepted == Written(s.flushes) + (s.batch + s.channel) }

  /** Between moves a running loop holds less than a full batch; full batches were full; a loop
      that has ended holds nothing, and left in the channel only what came too late. */
  predicate Bounded<T(==)>(s: State<T>) {
    && |s.channel| <= s.bufferSize
    && (s.mode == Running ==> |s.batch| < s.batchSize || s.batch == [])
    && (s.mode == Stopped ==> s.batch == [] && s.channel == s.late)
    && (s.mode != Stopped ==> s.late == [])
    && (forall f :: f in s.flushes && f.cause == Full ==> |f.entries| == (if s.batchSize == 0 then 1 else s.batchSize))
  }

  lemma {:induction false} FlushConserves<T>(s: State<T>, cause: Cause)
    requires Conserved(s)
    ensures Conserved(s.Flushed(cause))
  {
    if s.batch != [] {
      WrittenSnoc(s.flushes, Flush(cause, s.batch));
      Regroup(Written(s.flushes), s.batch, s.channel);
      assert [] + s.channel == s.channel;
    }
  }

  lemma {:induction false} TakeConserves<T>(s: State<T>)
    requires Conserved(s) && s.channel != []
    ensures Conserved(s.Taken())
  {
    assert (s.batch + [s.channel[0]]) + s.channel[1..] == s.batch + s.channel;
  }

  lemma {:induction false} ArriveConserves<T>(s: State<T>, entry: T)
    requires Conserved(s)
    ensures s.accepted + [entry] == Written(s.flushes) + (s.batch + (s.channel + [entry]))
  {
    Regroup(s.batch, s.channel, [entry]);
    Regroup(Written(s.flushes), s.batch + s.channel, [entry]);
  }

  lemma {:induction false} StepConserves<T>(s: State<T>, m: Move<T>)
    requires Conserved(s)
    ensures Conserved(Step(s, m))
  {
    if Ready(s, m) {
      match m {
        case Arrive(entry) => ArriveConserves(s, entry);
        case Receive =>
          TakeConserves(s);
          FlushConserves(s.Taken(), Full);
        case Tick => FlushConserves(s, Timer);
        case Cancel =>
        case DrainOne => TakeConserves(s);
        case DrainEnd => FlushConserves(s, Final);
      }
    }
  }

  lemma {:induction false} StepBounded<T>(s: State<T>, m: Move<T>)
    requires Bounded(s)
    ensures Bounded(Step(s, m))
  {}

  /** On every schedule of arrivals and branches of the loop. */
  lemma {:induction false} AlwaysConserved<T>(s: State<T>, schedule: seq<Move<T>>)
    requires Conserved(s) && Bounded(s)
    ensures Conserved(Fold(s, schedule)) && Bounded(Fold(s, schedule))
    decreases |schedule|
  {
    if schedule != [] {
      var before := schedule[..|schedule| - 1];
      AlwaysConserved(s, before);
      StepConserves(Fold(s, before), schedule[|schedule| - 1]);
      StepBounded(Fold(s, before), schedule[|schedule| - 1]);
    }
  }

  /** Once the loop has ended, everything accepted has been written but for what came after. */
  lemma {:induction false} StoppedHasWritten<T>(s: State<T>, schedule: seq<Move<T>>)
    requires Conserved(s) && Bounded(s)
    ensures var t := Fold(s, schedule); t.mode == Stopped ==> t.accepted == Written(t.flushes) + t.late
  {
    AlwaysConserved(s, schedule);
    var t := Fold(s, schedule);
    if t.mode == Stopped { assert t.batch + t.channel == t.late; }
  }

  lemma {:induction false} FoldSnoc<T>(s: State<T>, schedule: seq<Move<T>>, m: Move<T>)
    ensures Fold(s, schedule + [m]) == Step(Fold(s, schedule), m)
  {
    assert (schedule + [m])[..|schedule|] == schedule;
  }

  lemma {:induction false} FoldAt<T>(s: State<T>, schedule: seq<Move<T>>, i: nat)
    requires i < |schedule|
    ensures Fold(s, schedule[..i + 1]) == Step(Fold(s, schedule[..i]), schedule[i])
  {
    assert schedule[..i + 1] == schedule[..i] + [schedule[i]];
    FoldSnoc(s, schedule[..i], schedule[i]);
  }

  function Drains<T>(n: nat): seq<Move<T>> { seq(n, i => DrainOne) }

  lemma {:induction false} DrainMore<T>(s: State<T>, n: nat)
    ensures Fold(s, Drains(n + 1)) == Step(Fold(s, Drains(n)), DrainOne)
  {
    assert Drains(n + 1) == Drains<T>(n) + [DrainOne];
    FoldSnoc(s, Drains(n), DrainOne);
  }

  lemma {:induction false} DrainSome<T>(s: State<T>, n: nat)
    requires s.mode == Draining && n <= |s.channel|
    ensures Fold(s, Drains(n)) == s.(channel := s.channel[n..], batch := s.batch + s.channel[..n])
  {
    if n == 0 {
      assert s.channel[0..] == s.channel && s.batch + s.channel[..0] == s.batch;
    } else {
      DrainSome(s, n - 1);
      DrainMore(s, n - 1);
      assert s.channel[..n] == s.channel[..n - 1] + [s.channel[n - 1]];
      Regroup(s.batch, s.channel[..n - 1], [s.channel[n - 1]]);
      assert s.channel[n - 1..][1..] == s.channel[n..];
    }
  }

  /** Shutdown: a cancelled loop that nothing more arrives at stops after as many moves as the
      channel has entries and one more, with everything accepted written. */
  lemma {:induction false} DrainFinishes<T>(s: State<T>)
    requires Conserved(s) && Bounded(s) && s.mode == Draining
    ensures var t := Fold(s, Drains(|s.channel|) + [DrainEnd]);
      t.mode == Stopped && t.channel == [] && t.accepted == s.accepted == Written(t.flushes)
  {
    var n := |s.channel|;
    DrainSome(s, n);
    FoldSnoc(s, Drains(n), DrainEnd);
    AlwaysConserved(s, Drains(n) + [DrainEnd]);
    var t := Fold(s, Drains(n) + [DrainEnd]);
    assert t.batch + t.channel == [] && Written(t.flushes) + [] == Written(t.flushes);
  }

  function Receives<T>(n: nat): seq<Move<T>> { seq(n, i => Receive) }

  lemma {:induction false} ReceiveMore<T>(s: State<T>, n: nat)
    ensures Fold(s, Receives(n + 1)) == Step(Fold(s, Receives(n)), Receive)
  {
    assert Receives(n + 1) == Receives<T>(n) + [Receive];
    FoldSnoc(s, Receives(n), Receive);
  }

  /** A running loop takes what is in the channel, one entry at a time. */
  lemma {:induction false} ReceiveSome<T>(s: State<T>, n: nat)
    requires s.mode == Running && n <= |s.channel|
    ensures var t := Fold(s, Receives(n)); t.mode == Running && t.channel == s.channel[n..] && t.accepted == s.accepted
  {
    if n == 0 {
      assert s.channel[0..] == s.channel;
    } else {
      ReceiveSome(s, n - 1);
      ReceiveMore(s, n - 1);
      assert s.channel[n - 1..][1..] == s.channel[n..];
    }
  }

  /** The timer writes whatever the loop holds: all that was accepted is then in storage or still in
      the channel. */
  lemma {:induction false} TickWrites<T>(s: State<T>)
    requires Conserved(s) && s.mode == Running
    ensures var t := Step(s, Tick); t.mode == Running && t.batch == [] && t.accepted == Written(t.flushes) + t.channel
  {
    StepConserves(s, Tick);
    var t := Step(s, Tick);
    assert t.batch + t.channel == t.channel;
  }

  /** So a running loop has everything written once it has taken what there is and the timer fires. */
  lemma {:induction false} RunningWrites<T>(s: State<T>)
    requires Conserved(s) && Bounded(s) && s.mode == Running
    ensures var t := Fold(s, Receives(|s.channel|) + [Tick]);
      t.mode == Running && t.channel == [] && t.accepted == s.accepted == Written(t.flushes)
  {
    var n := |s.channel|;
    ReceiveSome(s, n);
    AlwaysConserved(s, Receives(n));
    FoldSnoc(s, Receives(n), Tick);
    TickWrites(Fold(s, Receives(n)));
    var t := Step(Fold(s, Receives(n)), Tick);
    assert Written(t.flushes) + [] == Written(t.flushes);
  }

  /** And a cancelled one stops with everything written. */
  lemma {:induction false} CancelFinishes<T>(s: State<T>)
    requires Conserved(s) && Bounded(s) && s.mode == Running
    ensures var t := Fold(Step(s, Cancel), Drains(|s.channel|) + [DrainEnd]);
      t.mode == Stopped && t.channel == [] && t.accepted == s.accepted == Written(t.flushes)
  {
    StepConserves(s, Cancel);
    StepBounded(s, Cancel);
    DrainFinishes(Step(s, Cancel));
  }

  // ---------------------------------------------------------------- the loop in place

  class Logger<T(0)> {
    const batchSize: nat
    const bufferSize: nat
    var channel: seq<T>
    /** The batch slice: its backing array and its length. */
    var backing: array<T>
    var length: nat
    var mode: Mode
    ghost var accepted: seq<T>
    ghost var flushes: seq<Flush<T>>
    ghost var late: seq<T>

    ghost predicate Valid()
      reads this, backing
    {
      length <= backing.Length && Conserved(View()) && Bounded(View())
    }

    /** After its last flush the slice is dead. */
    ghost function View(): State<T>
      reads this, backing
      requires length <= backing.Length
    {
      State(batchSize, bufferSize, channel,
            if mode == Stopped then [] else backing[..length], mode, accepted, flushes, late)
    }

    constructor (batchSize: nat, bufferSize: nat)
      ensures Valid() && fresh(backing) && View() == State(batchSize, bufferSize, [], [], Running, [], [], [])
    {
      this.batchSize, this.bufferSize := batchSize, bufferSize;
      channel, length, mode := [], 0, Running;
      backing := new T[batchSize];
      accepted, flushes, late := [], [], [];
    }

    /** Queues an entry unless the channel is full. */
    method Log(entry: T) returns (queued: bool)
      requires Valid()
      modifies this`channel, this`accepted, this`late
      ensures Valid() && View() == Step(old(View()), Arrive(entry)) && queued == (|old(channel)| < bufferSize)
    {
      StepConserves(View(), Arrive(entry));
      StepBounded(View(), Arrive(entry));
      queued := |channel| < bufferSize;
      if queued {
        channel := channel + [entry];
        accepted := accepted + [entry];
        if mode == Stopped { late := late + [entry]; }
      }
    }

    /** `append`: in place while there is capacity, else into a larger array. */
    method Append(entry: T)
      requires length <= backing.Length
      modifies this`backing, this`length, backing
      ensures length == old(length) + 1 && length <= backing.Length && (backing == old(backing) || fresh(backing))
      ensures backing[..length] == old(backing[..length]) + [entry]
    {
      if length == backing.Length {
        var larger := new T[2 * length + 1];
        forall i | 0 <= i < length { larger[i] := backing[i]; }
        backing := larger;
      }
      backing[length] := entry;
      length := length + 1;
    }

    /** Moves the head of the channel to the end of the batch. */
    method TakeOne()
      requires length <= backing.Length && mode != Stopped && channel != []
      modifies this`channel, this`backing, this`length, backing
      ensures length == old(length) + 1 && length <= backing.Length && (backing == old(backing) || fresh(backing))
      ensures View() == old(View()).Taken()
    {
      var entry := channel[0];
      channel := channel[1..];
      Append(entry);
    }

    /** Writes the batch out. The slice is free for reuse because the write is over. */
    method FlushBatch(cause: Cause)
      requires length <= backing.Length && mode != Stopped
      modifies this`length, this`flushes
      ensures length == 0 && View() == old(View()).Flushed(cause)
    {
      if length > 0 {
        flushes := flushes + [Flush(cause, backing[..length])];
        length := 0;
      }
    }

    /** The select branch that received an entry. */
    method OnEntry()
      requires Valid() && mode == Running && channel != []
      modifies this`channel, this`backing, this`length, this`flushes, backing
      ensures length <= backing.Length && (backing == old(backing) || fresh(backing))
      ensures View() == Step(old(View()), Receive)
    {
      TakeOne();
      if length >= batchSize {
        FlushBatch(Full);
      }
    }

    /** The ticker branch. */
    method OnTick()
      requires Valid() && mode == Running
      modifies this`length, this`flushes
      ensures length <= backing.Length && View() == Step(old(View()), Tick)
    {
      FlushBatch(Timer);
    }

    /** One step of the drain after shutdown was asked for; it ends when the channel is found
        empty, with one last flush. */
    method OnDrain()
      requires Valid() && mode == Draining
      modifies this`channel, this`backing, this`length, this`flushes, this`mode, backing
      ensures length <= backing.Length && (backing == old(backing) || fresh(backing))
      ensures View() == Step(old(View()), if old(channel) == [] then DrainEnd else DrainOne)
    {
      if channel == [] {
        FlushBatch(Final);
        mode := Stopped;
      } else {
        TakeOne();
      }
    }

    /** Shutdown is asked for. */
    method OnCancel()
      requires length <= backing.Length
      modifies this`mode
      ensures View() == Step(old(View()), Cancel)
    {
      if mode == Running { mode := Draining; }
    }

    /** A branch of the select, if it is ready. */
    method Branch(m: Move<T>)
      requires Valid() && !m.Arrive?
      modifies this, backing
      ensures length <= backing.Length && (backing == old(backing) || fresh(backing)) && View() == Step(old(View()), m)
    {
      match m
      case Receive => if mode == Running && channel != [] { OnEntry(); }
      case Tick => if mode == Running { OnTick(); }
      case Cancel => OnCancel();
      case DrainOne => if mode == Draining && channel != [] { OnDrain(); }
      case DrainEnd => if mode == Draining && channel == [] { OnDrain(); }
    }

    /** One move: exactly what the loop on values does. */
    method Do(m: Move<T>)
      requires Valid()
      modifies this, backing
      ensures Valid() && (backing == old(backing) || fresh(backing)) && View() == Step(old(View()), m)
    {
      if m.Arrive? {
        var queued := Log(m.entry);
      } else {
        StepConserves(View(), m);
        StepBounded(View(), m);
        Branch(m);
      }
    }

    /** The loop and any number of callers of Log, on any schedule. */
    method Run(schedule: seq<Move<T>>)
      requires Valid()
      modifies this, backing
      ensures Valid() && View() == Fold(old(View()), schedule)
    {
      ghost var start := View();
      var i := 0;
      assert schedule[..0] == [];
      while i < |schedule|
        invariant 0 <= i <= |schedule| && Valid() && View() == Fold(start, schedule[..i])
        invariant backing == old(backing) || fresh(backing)
      {
        FoldAt(start, schedule, i);
        Do(schedule[i]);
        i := i + 1;
      }
      assert schedule[..i] == schedule;
    }

    /** The drain loop after a cancellation, when nothing more arrives: it ends, and everything
        accepted is then in storage. */
    method DrainAll()
      requires Valid() && mode == Draining
      modifies this, backing
      ensures Valid() && mode == Stopped && channel == [] && accepted == old(accepted) == Written(flushes)
      ensures View() == Fold(old(View()), Drains(|old(channel)|) + [DrainEnd])
    {
      ghost var start, n := View(), 0;
      DrainSome(start, 0);
      while channel != []
        invariant n <= |start.channel| && |channel| == |start.channel| - n && mode == Draining
        invariant Valid() && View() == Fold(start, Drains(n)) && (backing == old(backing) || fresh(backing))
        decreases |channel|
      {
        DrainMore(start, n);
        Do(DrainOne);
        n := n + 1;
      }
      FoldSnoc(start, Drains(n), DrainEnd);
      Do(DrainEnd);
      DrainFinishes(start);
    }
  }
}
