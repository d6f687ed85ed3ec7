/**
 Which ranges can be replayed at all. The loader counts in unsigned 64-bit numbers, but asks
 the source for signed ones, and it asks for whole batches.
 */
module FetchRange {
  import opened Options
  import opened Uint64
  import opened Pipeline

  // ---------- The arithmetic of the loop header ----------

  /** The loop variable of the loader after k batches. */
  function CursorAfter(c: Config, k: nat): u64 {
    if k == 0 then c.Start() else Add64(CursorAfter(c, k - 1), CONCURRENCY)
  }

  lemma {:induction false} CursorInRange(c: Config, k: nat)
    requires c.head + c.count < U64 && CONCURRENCY * (k - 1) < c.count && 0 < c.count
    ensures CursorAfter(c, k) == (if c.head + 1 + CONCURRENCY * k < U64
                                  then c.head + 1 + CONCURRENCY * k
                                  else c.head + 1 + CONCURRENCY * k - U64)
  {
    if k > 0 {
      CursorInRange(c, k - 1);
    }
  }

  /** As far as the arithmetic goes, the loop ends after the last batch it needs if and only if
      its variable does not wrap there; otherwise it would start over below block 25. */
  lemma LoopEndsIffNoWrap(c: Config)
    requires c.head + c.count < U64 && 0 < c.count
    ensures forall k: nat :: k < c.Batches() ==> CursorAfter(c, k) <= c.End()
    ensures CursorAfter(c, c.Batches()) > c.End() <==> c.head + 1 + c.Fetched() < U64
    ensures c.head + 1 + c.Fetched() >= U64 ==> CursorAfter(c, c.Batches()) < CONCURRENCY
  {
    forall k: nat | k < c.Batches()
      ensures CursorAfter(c, k) <= c.End()
    {
      CursorInRange(c, k);
    }
    CursorInRange(c, c.Batches());
  }

  // ---------- What the machine reaches ----------

  lemma CursorStep(c: Config, s: State, a: Action)
    requires s.cursor == CursorAfter(c, s.batches) && Enabled(c, s, a)
    ensures Apply(c, s, a).cursor == CursorAfter(c, Apply(c, s, a).batches)
  {
    match a
    case SendIncoming =>
      assert CursorAfter(c, s.batches + 1) == Add64(s.cursor, CONCURRENCY);
    case _ =>
  }

  lemma {:induction false} CursorOfRun(c: Config, acts: seq<Action>, s: State)
    requires After(c, acts) == Some(s)
    ensures s.cursor == CursorAfter(c, s.batches)
  {
    if acts != [] {
      var n := |acts| - 1;
      var t := After(c, acts[..n]).value;
      CursorOfRun(c, acts[..n], t);
      CursorStep(c, t, acts[n]);
    }
  }

  /** In every reachable state the loader's variable is the one above. */
  lemma CursorIs(c: Config, s: State)
    requires Reachable(c, s)
    ensures s.cursor == CursorAfter(c, s.batches)
  {
    var acts: seq<Action> :| After(c, acts) == Some(s);
    CursorOfRun(c, acts, s);
  }

  /** The loader, whatever the range: every batch it has finished could be asked for, so its
      variable counts up from the first block without wrapping. */
  ghost predicate Unwrapped(c: Config, s: State) {
    && s.cursor == c.head + 1 + CONCURRENCY * s.batches
    && (s.batches > 0 ==> s.cursor <= U64 / 2 && s.cursor - CONCURRENCY <= c.End())
    && (s.loader.Fetching? || s.loader.Sending? ==> s.cursor <= c.End() && |s.loader.results| == CONCURRENCY)
    && (s.loader.Fetching? ==> s.loader.pending <= WORKERS)
    && (s.loader.Fetching? ==> forall i :: 0 <= i < CONCURRENCY ==> i in s.loader.pending || AskedFor(s, i))
    && (s.loader.Sending? ==> s.cursor + CONCURRENCY <= U64 / 2)
    && (s.loader.LoaderExited? ==> s.cursor > c.End())
    && (s.incoming.closed ==> s.loader.LoaderExited?)
  }

  predicate AskedFor(s: State, i: int)
    requires 0 <= i < CONCURRENCY
  {
    Askable(Add64(s.cursor, i))
  }

  lemma BarrierIsUnwrapped(c: Config, s: State)
    requires Unwrapped(c, s) && Enabled(c, s, Barrier)
    ensures s.cursor + CONCURRENCY <= U64 / 2
  {
    assert 0 !in s.loader.pending && CONCURRENCY - 1 !in s.loader.pending;
    assert AskedFor(s, 0) && AskedFor(s, CONCURRENCY - 1);
  }

  lemma UnwrappedFetch(c: Config, s: State, k: nat)
    requires Unwrapped(c, s) && Enabled(c, s, FetchOk(k))
    ensures Unwrapped(c, Apply(c, s, FetchOk(k)))
  {
    var t := Apply(c, s, FetchOk(k));
    forall i | 0 <= i < CONCURRENCY
      ensures i in t.loader.pending || AskedFor(t, i)
    {
      assert i in s.loader.pending || AskedFor(s, i);
    }
  }

  lemma UnwrappedStep(c: Config, s: State, a: Action)
    requires Unwrapped(c, s) && Enabled(c, s, a)
    ensures Unwrapped(c, Apply(c, s, a))
  {
    match a
    case FetchOk(i) => UnwrappedFetch(c, s, i);
    case Barrier => BarrierIsUnwrapped(c, s);
    case _ =>
  }

  lemma {:induction false} RunIsUnwrapped(c: Config, acts: seq<Action>, s: State)
    requires c.head + 1 < U64 && After(c, acts) == Some(s)
    ensures Unwrapped(c, s)
  {
    if acts != [] {
      var n := |acts| - 1;
      var t := After(c, acts[..n]).value;
      RunIsUnwrapped(c, acts[..n], t);
      UnwrappedStep(c, t, acts[n]);
    }
  }

  lemma ReachableUnwrapped(c: Config, s: State)
    requires c.head + 1 < U64 && Reachable(c, s)
    ensures Unwrapped(c, s)
  {
    var acts: seq<Action> :| After(c, acts) == Some(s);
    RunIsUnwrapped(c, acts, s);
  }

  /** In no reachable state, whatever the range, has the loop variable wrapped: a worker fails
      before that, on a number from 2^63 on. */
  lemma NeverWraps(c: Config, s: State)
    requires c.head + 1 < U64 && Reachable(c, s)
    ensures s.cursor == c.head + 1 + CONCURRENCY * s.batches
    ensures s.batches > 0 ==> s.cursor <= U64 / 2
  {
    ReachableUnwrapped(c, s);
  }

  /** So the loader that tests its range leaves the loop exactly after the last batch it needs. */
  lemma LoaderLeavesIff(c: Config, s: State)
    requires c.head + c.count < U64 && 0 < c.count
    requires Reachable(c, s) && !s.panicked && s.loader.Testing?
    ensures ApplyTest(c, s).loader.LoaderExited? <==> s.batches == c.Batches()
    ensures s.batches <= c.Batches()
  {
    ReachableUnwrapped(c, s);
  }

  // ---------- Which ranges can be replayed ----------

  /** A run that nothing disturbs and that replays the whole range. */
  ghost predicate Replays(c: Config, s: State) {
    && Reachable(c, s) && Finished(s) && !s.cancelled && !s.panicked
    && s.submitted == Range(c.head + 1, c.count)
  }

  /** Continue a run undisturbed until it is finished. */
  lemma {:induction false} RunToEnd(c: Config, s: State) returns (t: State)
    requires c.Fetchable() && Reachable(c, s) && !s.cancelled && !s.panicked
    ensures Reachable(c, t) && Finished(t) && !t.cancelled && !t.panicked
    decreases Measure(c, s)
  {
    ReachableInv(c, s);
    if Finished(s) {
      t := s;
    } else {
      var a := Progress(c, s);
      RegularStep(c, s, a);
      MeasureBounded(c, s);
      StepAdvances(c, s, a);
      t := RunToEnd(c, Apply(c, s, a));
    }
  }

  lemma RegularStep(c: Config, s: State, a: Action)
    requires c.Fetchable() && Inv(c, s) && Enabled(c, s, a) && IsRegular(a) && !s.cancelled
    ensures !Apply(c, s, a).panicked && !Apply(c, s, a).cancelled
  {
    StepKeepsInv(c, s, a);
  }

  lemma FetchableReplays(c: Config) returns (s: State)
    requires c.Fetchable()
    ensures Replays(c, s)
  {
    s := Init(c);
    assert After(c, []) == Some(s);
    s := RunToEnd(c, s);
    SubmitterReplaysAll(c, s);
  }

  /** The loader exits, so it has tested and left its loop beyond the end. */
  ghost predicate Left(c: Config, s: State) { s.loader.LoaderExited? ==> s.cursor > c.End() }

  lemma {:induction false} ExitIsBeyondEnd(c: Config, acts: seq<Action>, s: State)
    requires After(c, acts) == Some(s)
    ensures Left(c, s)
  {
    if acts != [] {
      var n := |acts| - 1;
      ExitIsBeyondEnd(c, acts[..n], After(c, acts[..n]).value);
    }
  }

  /** Above the last number of all, nothing can be replayed, not even nothing. */
  lemma NothingAtTop(c: Config, s: State)
    requires c.head + 1 == U64
    ensures !Replays(c, s)
  {
    if c.count == 0 {
      if Reachable(c, s) {
        var acts: seq<Action> :| After(c, acts) == Some(s);
        ExitIsBeyondEnd(c, acts, s);
      }
    } else {
      assert U64 == Range(c.head + 1, c.count)[0];
      assert forall b :: b in s.submitted ==> b < U64;
    }
  }

  lemma CoveringBatches(c: Config, batches: nat)
    requires CONCURRENCY * batches >= c.count
    ensures c.Fetched() <= CONCURRENCY * batches
  {
  }

  lemma ReplayedIsFetchable(c: Config, s: State)
    requires c.head + 1 < U64 && Replays(c, s)
    ensures c.Fetchable()
  {
    hide Reachable;
    if c.count > 0 {
      ReachableUnwrapped(c, s);
      assert s.submitted[c.count - 1] == c.head + c.count;
      CoveringBatches(c, s.batches);
    }
  }

  ghost predicate Replayable(c: Config) { exists s: State :: Replays(c, s) }

  /** A range can be replayed if and only if it is empty, or the batches that cover it end below
      block 2^63. */
  lemma RangeReplayedIff(c: Config)
    ensures Replayable(c) <==> c.Fetchable()
  {
    hide Replays;
    if c.Fetchable() {
      var s := FetchableReplays(c);
    }
    forall s: State | Replays(c, s)
      ensures c.Fetchable()
    {
      if c.head + 1 == U64 {
        NothingAtTop(c, s);
      } else {
        ReplayedIsFetchable(c, s);
      }
    }
  }

  /** At the edge: after block 2^63 - 26 a single block can be replayed; one block later it
      cannot, although the only block wanted is 2^63 - 24. */
  lemma EdgeExample()
    ensures Replayable(Config(U64 / 2 - 26, 1)) && !Replayable(Config(U64 / 2 - 25, 1))
  {
    RangeReplayedIff(Config(U64 / 2 - 26, 1));
    RangeReplayedIff(Config(U64 / 2 - 25, 1));
  }
}
