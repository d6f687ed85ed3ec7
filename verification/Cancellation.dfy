/**
 What cancelling the context does to the pipeline. The submitter and the mapper
 watch the context only while they wait to receive; neither the loader's sends nor
 the mapper's are in a select. So a goroutine can be left blocked forever.
 */
module Cancellation {
  import opened Options
  import opened Uint64
  import opened Pipeline

  /** The loader waits to send on a full input channel that the mapper has left. */
  predicate LoaderStranded(s: State) {
    s.mapper.MapperExited? && s.loader.Sending? && |s.incoming.queue| == CAPACITY
  }

  /** The mapper waits to send on a full output channel, and the loader is either
      done or waits in its turn. */
  predicate MapperStranded(s: State) {
    && s.mapper.Delivering? && |s.process.queue| == CAPACITY
    && (s.loader.LoaderExited? || (s.loader.Sending? && |s.incoming.queue| == CAPACITY))
  }

  /** Exactly how a run can get stuck: only after a cancellation, once the submitter has left. */
  lemma BlockedShape(c: Config, s: State)
    requires c.Fetchable() && Reachable(c, s)
    ensures Blocked(c, s) <==>
      !s.panicked && s.cancelled && s.submitter.SubmitterExited? && (LoaderStranded(s) || MapperStranded(s))
  {
    ReachableInv(c, s);
    if Blocked(c, s) {
      if !s.cancelled {
        var a := Progress(c, s);
        assert false;
      }
      assert !Enabled(c, s, SubmitCancelled) && !Enabled(c, s, SubmitFinish);
      assert !Enabled(c, s, MapCancelled) && !Enabled(c, s, MapSend);
      if !s.loader.LoaderExited? && !(s.loader.Sending? && |s.incoming.queue| == CAPACITY) {
        var a := LoaderProgress(c, s);
        assert false;
      }
    }
  }

  lemma StrandedNeedsTwoBatches(c: Config, s: State)
    requires c.Fetchable() && Inv(c, s) && (LoaderStranded(s) || MapperStranded(s))
    ensures c.count > CONCURRENCY
  {
  }

  /** A stuck pipeline holds more blocks than one batch. */
  lemma BlockedNeedsTwoBatches(c: Config, s: State)
    requires c.Fetchable() && Reachable(c, s) && Blocked(c, s)
    ensures c.count > CONCURRENCY
  {
    hide Enabled, Inv, Reachable, LoaderStranded, MapperStranded;
    BlockedShape(c, s);
    ReachableInv(c, s);
    StrandedNeedsTwoBatches(c, s);
  }

  // ---------- A run that gets stuck ----------

  /** All that the loader's steps may change. */
  predicate SameElsewhere(s: State, t: State) {
    && t.mapper == s.mapper && t.submitter == s.submitter
    && t.cancelled == s.cancelled && t.panicked == s.panicked && t.process == s.process
  }

  lemma {:induction false} FinishFetching(c: Config, s: State) returns (t: State)
    requires c.Fetchable() && Reachable(c, s) && s.loader.Fetching? && !s.panicked
    ensures Reachable(c, t) && SameElsewhere(s, t)
    ensures t.loader.Sending? && t.loader.next == 0
    ensures t.batches == s.batches && t.incoming == s.incoming
    decreases |s.loader.pending|
  {
    ReachableInv(c, s);
    if s.loader.pending == {} {
      Extend(c, s, Barrier);
      t := Apply(c, s, Barrier);
    } else {
      var i :| i in s.loader.pending;
      assert i in WORKERS;
      BatchInRange(c, s.batches);
      Extend(c, s, FetchOk(i));
      t := FinishFetching(c, Apply(c, s, FetchOk(i)));
    }
  }

  lemma {:induction false} SendBatch(c: Config, s: State) returns (t: State)
    requires c.Fetchable() && Reachable(c, s) && s.loader.Sending? && !s.panicked
    requires |s.incoming.queue| == s.loader.next
    ensures Reachable(c, t) && SameElsewhere(s, t)
    ensures t.loader.Testing? && t.batches == s.batches + 1
    ensures |t.incoming.queue| == CAPACITY
    decreases CONCURRENCY - |s.incoming.queue|
  {
    ReachableInv(c, s);
    Extend(c, s, SendIncoming);
    t := ApplySend(s);
    if s.loader.next + 1 < CONCURRENCY {
      t := SendBatch(c, t);
    }
  }

  lemma StartBatch(c: Config, s: State) returns (t: State)
    requires c.Fetchable() && Reachable(c, s) && s.loader.Testing? && !s.panicked && s.cursor <= c.End()
    ensures Reachable(c, t) && SameElsewhere(s, t)
    ensures t.loader.Sending? && t.loader.next == 0
    ensures t.batches == s.batches && t.incoming == s.incoming
  {
    Extend(c, s, TestRange);
    t := FinishFetching(c, ApplyTest(c, s));
  }

  /** Before anybody receives, the first batch fills the input channel and the second one is
      fetched. Then cancel: mapper and submitter leave, and the loader is blocked for good on
      the first block of the second batch. */
  lemma StrandedRun(c: Config) returns (s: State)
    requires c.Fetchable() && c.count > CONCURRENCY
    ensures Reachable(c, s) && Blocked(c, s)
  {
    s := Init(c);
    assert After(c, []) == Some(s);
    s := StartBatch(c, s);
    s := SendBatch(c, s);
    ReachableInv(c, s);
    s := StartBatch(c, s);
    Extend(c, s, Cancel);
    s := Apply(c, s, Cancel);
    Extend(c, s, MapCancelled);
    s := Apply(c, s, MapCancelled);
    Extend(c, s, SubmitCancelled);
    s := Apply(c, s, SubmitCancelled);
    BlockedShape(c, s);
  }

  /** Cancellation can leave a goroutine blocked forever if and only if the run
      asks for more than 25 blocks. */
  lemma CancellationLeaksIff(c: Config)
    requires c.Fetchable()
    ensures (exists s: State :: Reachable(c, s) && Blocked(c, s)) <==> c.count > 25
  {
    if c.count > CONCURRENCY {
      var s := StrandedRun(c);
    } else if s: State :| Reachable(c, s) && Blocked(c, s) {
      BlockedNeedsTwoBatches(c, s);
      assert false;
    }
  }

  /** Twenty-six blocks are enough to leave the loader blocked. */
  lemma StrandedExample() returns (s: State)
    ensures Reachable(Config(0, 26), s) && Blocked(Config(0, 26), s)
  {
    s := StrandedRun(Config(0, 26));
  }
}
