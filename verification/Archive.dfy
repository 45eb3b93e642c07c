/**
 * The batching loop of the S3 result archive. What an upload attempt does is a parameter: the n-th
 * attempt stores the object, fails in a way worth retrying, or fails for good (encoding errors).
 */
module Archive {

  const BUFFER_CAPACITY: nat := 10000
  const DEFAULT_BATCH_SIZE: nat := 100

  datatype Upload = Stored | Retryable | Permanent

  /** What became of a run of results that left the batch: an object in the bucket, or a logged loss. */
  datatype Segment<R> = Uploaded(results: seq<R>) | Dropped(results: seq<R>)

  datatype State<R> = State(
    ch: seq<R>, batch: seq<R>, flushFailed: bool, stopped: bool,
    attempts: nat, log: seq<Segment<R>>, accepted: seq<R>)

  datatype Step<R> = Enqueue(result: R) | Receive | Tick | Final

  function BatchSize(configured: int): (n: nat)
    ensures n > 0
  {
    if configured <= 0 then DEFAULT_BATCH_SIZE else configured
  }

  function Init<R>(): State<R> {
    State([], [], false, false, 0, [], [])
  }

  function DoFlush<R>(s: State<R>, upload: nat -> Upload, final: bool): (s': State<R>)
    ensures s'.ch == s.ch && s'.accepted == s.accepted && s'.stopped == s.stopped
    ensures final ==> s'.batch == []
  {
    if s.batch == [] then s
    else
      var s1 := s.(attempts := s.attempts + 1);
      var outcome := upload(s.attempts);
      if outcome == Stored then s1.(batch := [], flushFailed := false, log := s.log + [Uploaded(s.batch)])
      else if final || outcome == Permanent then s1.(batch := [], log := s.log + [Dropped(s.batch)])
      else if |s.batch| > BUFFER_CAPACITY then
        var drop := |s.batch| - BUFFER_CAPACITY;
        s1.(flushFailed := true, batch := s.batch[drop..], log := s.log + [Dropped(s.batch[..drop])])
      else s1.(flushFailed := true)
  }

  function DoEnqueue<R>(s: State<R>, result: R): State<R> {
    if |s.ch| >= BUFFER_CAPACITY then s
    else s.(ch := s.ch + [result], accepted := s.accepted + [result])
  }

  function DoReceive<R>(s: State<R>, upload: nat -> Upload, size: nat): State<R> {
    if s.stopped || s.ch == [] then s
    else
      var s1 := s.(ch := s.ch[1..], batch := s.batch + [s.ch[0]]);
      if |s1.batch| >= size && !s1.flushFailed then DoFlush(s1, upload, false) else s1
  }

  function Apply<R>(s: State<R>, step: Step<R>, upload: nat -> Upload, size: nat): State<R> {
    match step
    case Enqueue(result) => DoEnqueue(s, result)
    case Receive => DoReceive(s, upload, size)
    case Tick => if s.stopped then s else DoFlush(s, upload, false)
    case Final => if s.stopped || s.ch != [] then s else DoFlush(s, upload, true).(stopped := true)
  }

  function Exec<R>(s: State<R>, steps: seq<Step<R>>, upload: nat -> Upload, size: nat): State<R>
    decreases |steps|
  {
    if steps == [] then s else Exec(Apply(s, steps[0], upload, size), steps[1..], upload, size)
  }

  /** All results that left the batch, in the order they left. */
  function Flatten<R>(log: seq<Segment<R>>): seq<R> {
    if log == [] then [] else Flatten(log[..|log| - 1]) + log[|log| - 1].results
  }

  lemma FlattenAppend<R>(log: seq<Segment<R>>, segment: Segment<R>)
    ensures Flatten(log + [segment]) == Flatten(log) + segment.results
  {
    assert (log + [segment])[..|log|] == log;
  }

  /**
   * Every accepted result is, in order and exactly once, in an uploaded object, among the logged
   * losses, in the batch or in the channel; unless a flush has failed the batch is short of a full one.
   */
  ghost predicate Conserved<R>(s: State<R>, size: nat) {
    && Flatten(s.log) + s.batch + s.ch == s.accepted
    && (!s.flushFailed ==> |s.batch| < size)
    && |s.ch| <= BUFFER_CAPACITY
    && (s.stopped ==> s.batch == [])
    && forall i | 0 <= i < |s.log| :: s.log[i].results != []
  }

  lemma SegmentMoves<R>(log: seq<Segment<R>>, segment: Segment<R>, rest: seq<R>, batch: seq<R>)
    requires segment.results + rest == batch
    ensures Flatten(log + [segment]) + rest == Flatten(log) + batch
  {
    FlattenAppend(log, segment);
    assert Flatten(log) + segment.results + rest == Flatten(log) + (segment.results + rest);
  }

  /** A flush moves results from the front of the batch to the log. */
  lemma FlushMoves<R>(s: State<R>, upload: nat -> Upload, final: bool)
    ensures var s' := DoFlush(s, upload, final);
            && Flatten(s'.log) + s'.batch == Flatten(s.log) + s.batch
            && |s.log| <= |s'.log| <= |s.log| + 1 && s'.log[..|s.log|] == s.log
            && (s'.log != s.log ==> s'.log[|s.log|].results != [])
  {
    hide Flatten;
    var s' := DoFlush(s, upload, final);
    if s'.log != s.log {
      var segment := s'.log[|s.log|];
      assert s'.log == s.log + [segment];
      SegmentMoves(s.log, segment, s'.batch, s.batch);
    }
  }

  lemma FlushConserves<R>(s: State<R>, upload: nat -> Upload, final: bool, size: nat)
    requires size > 0 && Flatten(s.log) + s.batch + s.ch == s.accepted && |s.ch| <= BUFFER_CAPACITY
    requires forall i | 0 <= i < |s.log| :: s.log[i].results != []
    requires !s.stopped && (s.flushFailed || |s.batch| <= size)
    ensures var s' := DoFlush(s, upload, final);
            Conserved(s', size) && s'.ch == s.ch && s'.accepted == s.accepted && (final ==> s'.batch == [])
  {
    hide Flatten;
    FlushMoves(s, upload, final);
  }

  lemma StepConserves<R>(s: State<R>, step: Step<R>, upload: nat -> Upload, size: nat)
    requires size > 0 && Conserved(s, size)
    ensures Conserved(Apply(s, step, upload, size), size)
  {
    match step
    case Enqueue(result) =>
    case Receive =>
      if !s.stopped && s.ch != [] {
        var s1 := s.(ch := s.ch[1..], batch := s.batch + [s.ch[0]]);
        assert s1.batch + s1.ch == s.batch + s.ch;
        assert Flatten(s1.log) + s1.batch + s1.ch == Flatten(s.log) + s.batch + s.ch;
        if |s1.batch| >= size && !s1.flushFailed {
          FlushConserves(s1, upload, false, size);
        }
      }
    case Tick =>
      if !s.stopped {
        FlushConserves(s, upload, false, size);
      }
    case Final =>
      if !s.stopped && s.ch == [] {
        FlushConserves(s, upload, true, size);
      }
  }

  lemma AllOut<R>(s: State<R>, size: nat)
    requires Conserved(s, size) && s.batch == [] && s.ch == []
    ensures Flatten(s.log) == s.accepted
  {
  }

  lemma {:induction false} RunConserves<R>(s: State<R>, steps: seq<Step<R>>, upload: nat -> Upload, size: nat)
    requires size > 0 && Conserved(s, size)
    ensures Conserved(Exec(s, steps, upload, size), size)
    decreases |steps|
  {
    if steps != [] {
      StepConserves(s, steps[0], upload, size);
      RunConserves(Apply(s, steps[0], upload, size), steps[1..], upload, size);
    }
  }

  // ---------- Without failing uploads ----------

  ghost predicate NothingLost<R>(s: State<R>, size: nat) {
    !s.flushFailed && forall i | 0 <= i < |s.log| :: s.log[i].Uploaded? && |s.log[i].results| <= size
  }

  lemma {:induction false} RunLosesNothing<R>(s: State<R>, steps: seq<Step<R>>, upload: nat -> Upload, size: nat)
    requires size > 0 && Conserved(s, size) && NothingLost(s, size) && forall n :: upload(n) == Stored
    ensures NothingLost(Exec(s, steps, upload, size), size)
    decreases |steps|
  {
    if steps != [] {
      StepConserves(s, steps[0], upload, size);
      RunLosesNothing(Apply(s, steps[0], upload, size), steps[1..], upload, size);
    }
  }

  // ---------- When a full batch is flushed ----------

  /** The latest upload attempt that did not fail for good was worth retrying. */
  ghost predicate LastFailed(upload: nat -> Upload, attempts: nat) {
    exists n: nat | n < attempts :: upload(n) == Retryable && forall m: nat | n < m < attempts :: upload(m) == Permanent
  }

  lemma OneMoreAttempt(upload: nat -> Upload, attempts: nat)
    ensures LastFailed(upload, attempts + 1) <==>
            || upload(attempts) == Retryable
            || (upload(attempts) == Permanent && LastFailed(upload, attempts))
  {
    if upload(attempts) == Permanent && LastFailed(upload, attempts) {
      var n: nat :| && n < attempts && upload(n) == Retryable
                    && forall m: nat | n < m < attempts :: upload(m) == Permanent;
      assert upload(n) == Retryable && forall m: nat | n < m < attempts + 1 :: upload(m) == Permanent;
    }
  }

  lemma StepKeepsFlag<R>(s: State<R>, step: Step<R>, upload: nat -> Upload, size: nat)
    requires !s.stopped && (s.flushFailed <==> LastFailed(upload, s.attempts))
    ensures var s' := Apply(s, step, upload, size);
            !s'.stopped ==> (s'.flushFailed <==> LastFailed(upload, s'.attempts))
  {
    hide LastFailed;
    OneMoreAttempt(upload, s.attempts);
  }

  lemma StaysStopped<R>(s: State<R>, step: Step<R>, upload: nat -> Upload, size: nat)
    requires s.stopped
    ensures Apply(s, step, upload, size).stopped
  {
  }

  /**
   * In every run, until the loop stops, the flag that holds back flushing on size is set if and only if the
   * latest upload attempt, not counting those that failed for good, failed in a way worth retrying.
   */
  lemma {:induction false} FlagExactly<R>(s: State<R>, steps: seq<Step<R>>, upload: nat -> Upload, size: nat)
    requires s.stopped || (s.flushFailed <==> LastFailed(upload, s.attempts))
    ensures var s' := Exec(s, steps, upload, size);
            s'.stopped || (s'.flushFailed <==> LastFailed(upload, s'.attempts))
    decreases |steps|
  {
    hide Apply, LastFailed;
    if steps != [] {
      if s.stopped {
        StaysStopped(s, steps[0], upload, size);
      } else {
        StepKeepsFlag(s, steps[0], upload, size);
      }
      FlagExactly(Apply(s, steps[0], upload, size), steps[1..], upload, size);
    }
  }

  /** Hence in every run, after an upload that was stored, the result that fills the batch goes out with it at once. */
  lemma FlushesAfterStored<R>(steps: seq<Step<R>>, upload: nat -> Upload, size: nat)
    requires var s := Exec(Init<R>(), steps, upload, size);
             && !s.stopped && s.ch != [] && |s.batch| + 1 >= size
             && s.attempts > 0 && upload(s.attempts - 1) == Stored
    ensures var s := Exec(Init<R>(), steps, upload, size);
            var s' := Apply(s, Step.Receive, upload, size);
            && s'.attempts == s.attempts + 1
            && (upload(s.attempts) == Stored ==>
                  s'.batch == [] && s'.log == s.log + [Uploaded(s.batch + [s.ch[0]])])
  {
    var s := Exec(Init<R>(), steps, upload, size);
    assert !LastFailed(upload, 0);
    FlagExactly(Init<R>(), steps, upload, size);
    OneMoreAttempt(upload, s.attempts - 1);
  }

  // ---------- What one flush does ----------

  /** A final flush, and one that fails for good, gives the batch up; one worth retrying keeps what fits. */
  lemma FlushDoes<R>(s: State<R>, upload: nat -> Upload, final: bool)
    requires s.batch != []
    ensures var s' := DoFlush(s, upload, final);
            var outcome := upload(s.attempts);
            var excess := |s.batch| - 10000;
            && s' == s.(attempts := s.attempts + 1, batch := s'.batch, flushFailed := s'.flushFailed, log := s'.log)
            && (outcome == Stored ==> s'.batch == [] && !s'.flushFailed && s'.log == s.log + [Uploaded(s.batch)])
            && (outcome == Permanent || (outcome == Retryable && final) ==>
                  s'.batch == [] && s'.flushFailed == s.flushFailed && s'.log == s.log + [Dropped(s.batch)])
            && (outcome == Retryable && !final && excess <= 0 ==>
                  s'.batch == s.batch && s'.flushFailed && s'.log == s.log)
            && (outcome == Retryable && !final && excess > 0 ==>
                  && s'.batch == s.batch[excess..] && s'.flushFailed
                  && s'.log == s.log + [Dropped(s.batch[..excess])])
  {
  }

  /** A tick tries again whatever is in the batch; the loop ends with one last flush, once the channel is empty. */
  lemma TickAndFinal<R>(s: State<R>, upload: nat -> Upload, size: nat)
    requires !s.stopped
    ensures var s' := Apply(s, Step.Tick, upload, size);
            if s.batch == [] then s' == s
            else
              && s'.attempts == s.attempts + 1 && s'.ch == s.ch && !s'.stopped
              && (upload(s.attempts) == Stored ==>
                    s'.batch == [] && !s'.flushFailed && s'.log == s.log + [Uploaded(s.batch)])
    ensures var s' := Apply(s, Step.Final, upload, size);
            if s.ch != [] then s' == s
            else
              && s'.stopped && s'.batch == [] && s'.ch == []
              && s'.attempts == (if s.batch == [] then s.attempts else s.attempts + 1)
  {
  }

  // ---------- The retry buffer ----------

  /** The results received so far, whatever has become of them. */
  function Received<R>(s: State<R>): seq<R>
    requires |s.ch| <= |s.accepted|
  {
    s.accepted[..|s.accepted| - |s.ch|]
  }

  /**
   * After a failure worth retrying the batch holds exactly the newest of all results received, as many as there
   * were in it but no more than the capacity; nothing else has left it.
   */
  lemma KeepsNewest<R>(s: State<R>, upload: nat -> Upload, size: nat)
    requires Conserved(s, size) && s.batch != [] && upload(s.attempts) == Retryable
    ensures |s.ch| <= |s.accepted|
    ensures var s' := DoFlush(s, upload, false);
            && |s'.batch| == (if |s.batch| > BUFFER_CAPACITY then BUFFER_CAPACITY else |s.batch|) <= |Received(s)|
            && s'.batch == Received(s)[|Received(s)| - |s'.batch|..]
            && Flatten(s'.log) == Received(s)[..|Received(s)| - |s'.batch|]
  {
    var s' := DoFlush(s, upload, false);
    FlushMoves(s, upload, false);
    hide Flatten;
    assert Received(s) == Flatten(s.log) + s.batch;
    assert Received(s) == Flatten(s'.log) + s'.batch;
  }

  /**
   * A result that is received into a full buffer without being flushed: the last flush failed, so the loop
   * waits for the tick; or batches are configured to be larger than the buffer.
   */
  predicate Overflows<R>(s: State<R>, step: Step<R>, size: nat) {
    && step.Receive? && !s.stopped && s.ch != [] && |s.batch| == BUFFER_CAPACITY
    && (s.flushFailed || BUFFER_CAPACITY + 1 < size)
  }

  /** Exactly which step takes the batch beyond the capacity, whatever the uploads do. */
  lemma CapacityExactly<R>(s: State<R>, step: Step<R>, upload: nat -> Upload, size: nat)
    requires size > 0 && |s.batch| <= BUFFER_CAPACITY
    ensures |Apply(s, step, upload, size).batch| <= BUFFER_CAPACITY <==> !Overflows(s, step, size)
  {
  }

  predicate WithinCapacity<R>(s: State<R>, steps: seq<Step<R>>, upload: nat -> Upload, size: nat)
    decreases |steps|
  {
    && |s.batch| <= BUFFER_CAPACITY
    && (steps == [] || WithinCapacity(Apply(s, steps[0], upload, size), steps[1..], upload, size))
  }

  predicate NeverOverflows<R>(s: State<R>, steps: seq<Step<R>>, upload: nat -> Upload, size: nat)
    decreases |steps|
  {
    steps == []
    || (!Overflows(s, steps[0], size) && NeverOverflows(Apply(s, steps[0], upload, size), steps[1..], upload, size))
  }

  /** Over whole runs: the capacity bounds the batch in every state if and only if no receive overflows it. */
  lemma {:induction false} CapacityHoldsExactly<R>(s: State<R>, steps: seq<Step<R>>, upload: nat -> Upload, size: nat)
    requires size > 0 && |s.batch| <= BUFFER_CAPACITY
    ensures WithinCapacity(s, steps, upload, size) <==> NeverOverflows(s, steps, upload, size)
    decreases |steps|
  {
    hide Apply, Overflows;
    if steps != [] {
      CapacityExactly(s, steps[0], upload, size);
      if !Overflows(s, steps[0], size) {
        CapacityHoldsExactly(Apply(s, steps[0], upload, size), steps[1..], upload, size);
      }
    }
  }

  /** In particular it does as long as no upload fails in a way worth retrying. */
  lemma {:induction false} NoRetryNoOverflow<R>(s: State<R>, steps: seq<Step<R>>, upload: nat -> Upload, size: nat)
    requires 0 < size <= BUFFER_CAPACITY + 1 && Conserved(s, size) && !s.flushFailed
    requires forall n :: upload(n) != Retryable
    ensures NeverOverflows(s, steps, upload, size) && !Exec(s, steps, upload, size).flushFailed
    decreases |steps|
  {
    if steps != [] {
      StepConserves(s, steps[0], upload, size);
      NoRetryNoOverflow(Apply(s, steps[0], upload, size), steps[1..], upload, size);
    }
  }

  lemma ExecAppend<R>(s: State<R>, steps: seq<Step<R>>, step: Step<R>, upload: nat -> Upload, size: nat)
    ensures Exec(s, steps + [step], upload, size) == Apply(Exec(s, steps, upload, size), step, upload, size)
  {
    ExecJoin(s, steps, [step], upload, size);
    assert [step][1..] == [];
  }

  /** The memory held while the bucket is unreachable is not bounded by the capacity. */
  lemma {:induction false} BatchOutgrowsAnyBound<R>(r: R, n: nat) returns (steps: seq<Step<R>>)
    ensures var s := Exec(Init<R>(), steps, _ => Retryable, 1);
            s.batch == seq(n + 1, _ => r) && s.ch == [] && s.flushFailed && !s.stopped
  {
    var up: nat -> Upload := _ => Retryable;
    if n == 0 {
      steps := [];
    } else {
      steps := BatchOutgrowsAnyBound(r, n - 1);
    }
    ExecAppend(Init<R>(), steps, Enqueue(r), up, 1);
    ExecAppend(Init<R>(), steps + [Enqueue(r)], Receive, up, 1);
    steps := steps + [Enqueue(r)] + [Receive];
  }

  lemma {:induction false} ExecJoin<R>(s: State<R>, a: seq<Step<R>>, b: seq<Step<R>>, upload: nat -> Upload, size: nat)
    ensures Exec(s, a + b, upload, size) == Exec(Exec(s, a, upload, size), b, upload, size)
    decreases |a|
  {
    if a == [] {
      assert a + b == b;
    } else {
      assert (a + b)[1..] == a[1..] + b;
      ExecJoin(Apply(s, a[0], upload, size), a[1..], b, upload, size);
    }
  }

  // ---------- The archiver object ----------

  /** How many events come before the shutdown. */
  function Handled<R>(events: seq<Step<R>>): (n: nat)
    ensures n <= |events| && (n < |events| ==> events[n].Final?)
    ensures forall i | 0 <= i < n :: !events[i].Final?
  {
    if events == [] || events[0].Final? then 0 else 1 + Handled(events[1..])
  }

  function Receives<R>(n: nat): seq<Step<R>> {
    seq(n, _ => Step.Receive)
  }

  class S3Archiver<R> {
    const batchSize: nat
    const upload: nat -> Upload
    var ch: seq<R>
    var batch: seq<R>
    var flushFailed: bool
    var stopped: bool
    var attempts: nat
    var log: seq<Segment<R>>
    ghost var accepted: seq<R>

    ghost function Now(): State<R>
      reads this
    {
      State(ch, batch, flushFailed, stopped, attempts, log, accepted)
    }

    ghost predicate Valid()
      reads this
    {
      batchSize > 0 && Conserved(Now(), batchSize)
    }

    constructor (configured: int, upload: nat -> Upload)
      ensures Valid() && Now() == Init() && this.upload == upload
      ensures batchSize == if configured <= 0 then 100 else configured
    {
      batchSize, this.upload := BatchSize(configured), upload;
      ch, batch, flushFailed, stopped, attempts, log, accepted := [], [], false, false, 0, [], [];
    }

    /** Never blocks: a full channel refuses the result. */
    method Enqueue(result: R)
      requires Valid()
      modifies this
      ensures Valid() && Now() == DoEnqueue(old(Now()), result)
      ensures ch == if |old(ch)| < 10000 then old(ch) + [result] else old(ch)
    {
      if |ch| < BUFFER_CAPACITY {
        ch := ch + [result];
        accepted := accepted + [result];
      }
    }

    method Flush(final: bool)
      modifies this
      ensures Now() == DoFlush(old(Now()), upload, final)
    {
      if |batch| == 0 {
        return;
      }
      var outcome := upload(attempts);
      attempts := attempts + 1;
      if outcome == Stored {
        log := log + [Uploaded(batch)];
        batch := [];
        flushFailed := false;
        return;
      }
      if final || outcome == Permanent {
        log := log + [Dropped(batch)];
        batch := [];
        return;
      }
      flushFailed := true;
      var drop := |batch| - BUFFER_CAPACITY;
      if drop > 0 {
        log := log + [Dropped(batch[..drop])];
        batch := batch[drop..];
      }
    }

    method FlushOnSize()
      modifies this
      ensures Now() == if |old(batch)| >= batchSize && !old(flushFailed) then DoFlush(old(Now()), upload, false)
                       else old(Now())
    {
      if |batch| >= batchSize && !flushFailed {
        Flush(false);
      }
    }

    method ReceiveOne()
      requires Valid() && ch != [] && !stopped
      modifies this
      ensures Valid() && Now() == DoReceive(old(Now()), upload, batchSize)
    {
      StepConserves(Now(), Step.Receive, upload, batchSize);
      var r := ch[0];
      ch := ch[1..];
      batch := batch + [r];
      FlushOnSize();
    }

    /**
     * The loop: handles the events up to the shutdown in the order the select statement picks them,
     * then drains the channel and flushes once more. Afterwards every result accepted so far has been
     * uploaded or reported lost, in order; if no upload fails, none is lost.
     */
    method Run(events: seq<Step<R>>) returns (ghost drained: nat)
      requires Valid() && !stopped
      modifies this
      ensures Valid() && stopped && ch == [] && batch == [] && Flatten(log) == accepted
      ensures Now() == Exec(old(Now()), events[..Handled(events)] + Receives(drained) + [Final], upload, batchSize)
      ensures (forall n :: upload(n) == Stored) && NothingLost(old(Now()), batchSize) ==> NothingLost(Now(), batchSize)
    {
      ghost var start, steps := Now(), [];
      assert Now() == Exec(start, steps, upload, batchSize);
      hide Exec, Conserved, NothingLost, Flatten, DoFlush;
      var i := 0;
      while i < |events| && !events[i].Final?
        invariant 0 <= i <= Handled(events)
        invariant Valid() && !stopped
        invariant steps == events[..i] && Now() == Exec(start, steps, upload, batchSize)
        decreases |events| - i
      {
        StepConserves(Now(), events[i], upload, batchSize);
        ExecAppend(start, steps, events[i], upload, batchSize);
        if events[i].Enqueue? {
          Enqueue(events[i].result);
        } else if events[i].Tick? {
          Flush(false);
        } else if |ch| > 0 {
          ReceiveOne();
        }
        steps := steps + [events[i]];
        i := i + 1;
      }
      drained := Drain();
      ExecJoin(start, steps, Receives(drained) + [Final], upload, batchSize);
      assert steps + (Receives(drained) + [Final]) == steps + Receives(drained) + [Final];
      if (forall n :: upload(n) == Stored) && NothingLost(start, batchSize) {
        RunLosesNothing(start, steps + Receives(drained) + [Step.Final], upload, batchSize);
      }
    }

    /** The shutdown: empties the channel, then makes the one final attempt. */
    method Drain() returns (ghost drained: nat)
      requires Valid() && !stopped
      modifies this
      ensures Valid() && stopped && ch == [] && batch == [] && Flatten(log) == accepted
      ensures Now() == Exec(old(Now()), Receives(drained) + [Final], upload, batchSize)
    {
      hide Flatten, DoFlush;
      ghost var start := Now();
      drained := 0;
      while |ch| > 0
        invariant Valid() && !stopped
        invariant Now() == Exec(start, Receives(drained), upload, batchSize)
        decreases |ch|
      {
        ExecAppend(start, Receives(drained), Step.Receive, upload, batchSize);
        assert Receives<R>(drained) + [Step.Receive] == Receives<R>(drained + 1);
        ReceiveOne();
        drained := drained + 1;
      }
      StepConserves(Now(), Step.Final, upload, batchSize);
      ExecAppend(start, Receives(drained), Step.Final, upload, batchSize);
      Flush(true);
      stopped := true;
      AllOut(Now(), batchSize);
    }
  }
}
