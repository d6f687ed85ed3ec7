/**
 The block pipeline of one benchmark run, as a state machine over the atomic
 steps of its goroutines: the loader with its 25 fetch workers, the mapper and
 the submitter, joined by two bounded FIFO channels. A block is known by its
 number; what the block holds plays no part here.
 */
module Pipeline {
  import opened Options
  import opened Uint64

  const CONCURRENCY: nat := 25
  const CAPACITY: nat := 25

  /** The arguments of NewBenchmark that decide which blocks are replayed. */
  datatype Config = Config(head: u64, count: u64) {
    function Start(): u64 { Add64(head, 1) }

    function End(): u64 { Add64(head, count) }

    /** The number of batches needed to cover `count` blocks. */
    function Batches(): nat { (count + CONCURRENCY - 1) / CONCURRENCY }

    /** The number of blocks in those batches: `count` rounded up to a multiple of 25. */
    function Fetched(): nat { CONCURRENCY * Batches() }

    /** The source can be asked for every block of those batches. */
    predicate Fetchable() { head + 1 < U64 && (count == 0 || head + Fetched() < U64 / 2) }
  }

  /** The code asks the source for block int64(n). No block has a negative number. */
  predicate Askable(n: u64) { ToInt64(n) >= 0 }

  datatype Channel<T> = Channel(queue: seq<T>, closed: bool)

  /** Where the loader is. `pending` holds the workers the wait group still waits for. */
  datatype Loader =
    | Testing
    | Fetching(results: seq<Option<u64>>, pending: set<nat>)
    | Sending(results: seq<Option<u64>>, next: nat)
    | LoaderExited

  datatype Mapper = Receiving | Delivering(block: u64) | MapperExited

  datatype Submitter = Waiting | Adding(block: u64) | SubmitterExited

  /** The last four fields record what happened so far: the batches the loader has
      finished, the blocks given to the strategy, those given to addBlock, and the
      one on which the submitter stopped. */
  datatype State = State(
    cursor: u64,
    loader: Loader,
    incoming: Channel<Option<u64>>,
    mapper: Mapper,
    process: Channel<u64>,
    submitter: Submitter,
    remaining: u64,
    cancelled: bool,
    panicked: bool,
    batches: nat,
    mapped: seq<u64>,
    submitted: seq<u64>,
    dropped: seq<u64>)

  /** FetchOk is the moment a worker has its block. After a cancellation it stands for an answer
      that arrived before the context was done; a fetch still under way then fails. */
  datatype Action =
    | TestRange
    | FetchOk(worker: nat)
    | FetchFail(worker: nat)
    | Barrier
    | SendIncoming
    | MapReceive
    | MapSend
    | MapCancelled
    | SubmitReceive
    | SubmitFinish
    | SubmitFail
    | SubmitCancelled
    | Cancel

  function Init(c: Config): State {
    State(c.Start(), Testing, Channel([], false), Receiving, Channel([], false), Waiting,
          c.count, false, false, 0, [], [], [])
  }

  // ---------- The steps ----------

  /** Whether a goroutine can take the step now. A full channel blocks its sender,
      an empty open one blocks its receiver, and a panic ends everything. */
  predicate Enabled(c: Config, s: State, a: Action) {
    && !s.panicked
    && match a {
      case TestRange => s.loader.Testing?
      case FetchOk(i) =>
        s.loader.Fetching? && i in s.loader.pending && i < |s.loader.results| <= CONCURRENCY
        && Askable(Add64(s.cursor, i))
      case FetchFail(i) => s.loader.Fetching? && i in s.loader.pending
      case Barrier => s.loader.Fetching? && s.loader.pending == {}
      case SendIncoming =>
        s.loader.Sending? && s.loader.next < |s.loader.results|
        && (s.incoming.closed || |s.incoming.queue| < CAPACITY)
      case MapReceive => s.mapper.Receiving? && (s.incoming.queue != [] || s.incoming.closed)
      case MapSend => s.mapper.Delivering? && (s.process.closed || |s.process.queue| < CAPACITY)
      case MapCancelled => s.mapper.Receiving? && s.cancelled
      case SubmitReceive => s.submitter.Waiting? && (s.process.queue != [] || s.process.closed)
      case SubmitFinish => s.submitter.Adding?
      case SubmitFail => s.submitter.Adding?
      case SubmitCancelled => s.submitter.Waiting? && s.cancelled
      case Cancel => !s.cancelled
    }
  }

  function Apply(c: Config, s: State, a: Action): State
    requires Enabled(c, s, a)
  {
    match a {
      case TestRange => ApplyTest(c, s)
      case FetchOk(i) =>
        s.(loader := Fetching(s.loader.results[i := Some(Add64(s.cursor, i))], s.loader.pending - {i}))
      case FetchFail(_) => s.(panicked := true)
      case Barrier => s.(loader := Sending(s.loader.results, 0))
      case SendIncoming => ApplySend(s)
      case MapReceive => ApplyMapReceive(s)
      case MapSend =>
        if s.process.closed then s.(panicked := true)
        else s.(process := s.process.(queue := s.process.queue + [s.mapper.block]), mapper := Receiving)
      case MapCancelled => s.(mapper := MapperExited)
      case SubmitReceive => ApplySubmitReceive(c, s)
      case SubmitFinish => s.(submitter := Waiting, remaining := Sub64(s.remaining, 1))
      case SubmitFail => s.(panicked := true)
      case SubmitCancelled => s.(submitter := SubmitterExited)
      case Cancel => s.(cancelled := true)
    }
  }

  /** The head of the loader's loop: start 25 workers, or close the channel and leave. */
  function ApplyTest(c: Config, s: State): State {
    if s.cursor <= c.End() then
      s.(loader := Fetching(seq(CONCURRENCY, _ => None), WORKERS))
    else if s.incoming.closed then
      s.(panicked := true)
    else
      s.(loader := LoaderExited, incoming := s.incoming.(closed := true))
  }

  /** Send one fetched block; after the last one the loop variable moves on by 25. */
  function ApplySend(s: State): State
    requires s.loader.Sending? && s.loader.next < |s.loader.results|
  {
    var sent := s.incoming.(queue := s.incoming.queue + [s.loader.results[s.loader.next]]);
    if s.incoming.closed then
      s.(panicked := true)
    else if s.loader.next + 1 == |s.loader.results| then
      s.(incoming := sent, loader := Testing, cursor := Add64(s.cursor, CONCURRENCY), batches := s.batches + 1)
    else
      s.(incoming := sent, loader := s.loader.(next := s.loader.next + 1))
  }

  function ApplyMapReceive(s: State): State {
    if s.incoming.queue != [] then
      var t := s.(incoming := s.incoming.(queue := s.incoming.queue[1..]));
      match s.incoming.queue[0]
      case None => t
      case Some(b) => t.(mapper := Delivering(b), mapped := s.mapped + [b])
    else if s.process.closed then
      s.(panicked := true)
    else
      s.(mapper := MapperExited, process := s.process.(closed := true))
  }

  function ApplySubmitReceive(c: Config, s: State): State {
    if s.process.queue == [] then
      s.(submitter := SubmitterExited)
    else
      var b := s.process.queue[0];
      var t := s.(process := s.process.(queue := s.process.queue[1..]));
      if b > c.End() then t.(submitter := SubmitterExited, dropped := s.dropped + [b])
      else t.(submitter := Adding(b), submitted := s.submitted + [b])
  }

  predicate IsWorker(i: nat) { i < CONCURRENCY }

  /** The worker indices of one batch. */
  const WORKERS: set<nat> := set i: nat | i < CONCURRENCY && IsWorker(i)

  // ---------- Runs ----------

  /** The state after the steps `acts` from the initial one, if each was enabled in turn. */
  ghost function After(c: Config, acts: seq<Action>): Option<State> {
    if acts == [] then Some(Init(c))
    else
      var n := |acts| - 1;
      match After(c, acts[..n])
      case None => None
      case Some(s) => if Enabled(c, s, acts[n]) then Some(Apply(c, s, acts[n])) else None
  }

  ghost predicate Reachable(c: Config, s: State) {
    exists acts: seq<Action> :: After(c, acts) == Some(s)
  }

  /** The consecutive numbers start, start+1, ... that a sequential loop would visit. */
  function Range(start: nat, n: nat): (r: seq<nat>)
    ensures |r| == n && forall k :: 0 <= k < n ==> r[k] == start + k
  {
    seq(n, k requires 0 <= k < n => start + k)
  }

  // ---------- The invariant ----------

  function Taken(s: State): nat { |s.submitted| + |s.dropped| }

  function Held(s: State): nat { if s.mapper.Delivering? then 1 else 0 }

  function Sent(s: State): nat { if s.loader.Sending? then s.loader.next else 0 }

  predicate CountsFrom(queue: seq<nat>, first: nat) {
    forall k :: 0 <= k < |queue| ==> queue[k] == first + k
  }

  /** Every stage holds the next consecutive numbers: submitter, output channel,
      mapper, input channel and loader, end to end from the first block. */
  ghost predicate InFlight(c: Config, s: State) {
    && s.mapped == Range(c.head + 1, |s.mapped|)
    && s.submitted == Range(c.head + 1, |s.submitted|)
    && CountsFrom(s.process.queue, c.head + 1 + Taken(s))
    && (s.mapper.Delivering? ==> s.mapper.block == c.head + 1 + Taken(s) + |s.process.queue|)
    && |s.mapped| == Taken(s) + |s.process.queue| + Held(s)
    && (forall k :: 0 <= k < |s.incoming.queue| ==>
          s.incoming.queue[k] == Some(c.head + 1 + |s.mapped| + k))
    && s.cursor + Sent(s) == c.head + 1 + |s.mapped| + |s.incoming.queue|
  }

  ghost predicate LoaderOk(c: Config, s: State) {
    && s.cursor == c.head + 1 + CONCURRENCY * s.batches
    && s.batches <= c.Batches()
    && (s.loader.Fetching? || s.loader.Sending? ==>
          s.cursor <= c.head + c.count && |s.loader.results| == CONCURRENCY)
    && (s.loader.Fetching? ==> forall i :: 0 <= i < CONCURRENCY ==>
          i in s.loader.pending || s.loader.results[i] == Some(s.cursor + i))
    && (s.loader.Fetching? ==> s.loader.pending <= WORKERS)
    && (s.loader.Sending? ==> s.loader.next < CONCURRENCY)
    && (s.loader.Sending? ==> forall i :: 0 <= i < CONCURRENCY ==> s.loader.results[i] == Some(s.cursor + i))
    && (s.incoming.closed <==> s.loader.LoaderExited?)
    && (s.loader.LoaderExited? ==> s.batches == c.Batches())
    && |s.incoming.queue| <= CAPACITY
  }

  ghost predicate MapperOk(s: State) {
    && |s.process.queue| <= CAPACITY
    && (s.process.closed ==> s.mapper.MapperExited? && s.loader.LoaderExited? && s.incoming.queue == [])
    && (s.mapper.MapperExited? ==> s.process.closed || s.cancelled)
  }

  ghost predicate SubmitterOk(c: Config, s: State) {
    && |s.submitted| <= c.count
    && |s.dropped| <= 1
    && (s.dropped != [] ==>
          |s.submitted| == c.count && s.submitter.SubmitterExited? && s.dropped == [c.head + 1 + c.count])
    && (s.submitter.Adding? ==> s.submitted != [] && s.submitter.block == c.head + |s.submitted|)
    && s.remaining + |s.submitted| == c.count + (if s.submitter.Adding? then 1 else 0)
    && (s.submitter.SubmitterExited? ==>
          s.cancelled || s.dropped != [] || (s.process.closed && s.process.queue == []))
  }

  ghost predicate Inv(c: Config, s: State) {
    InFlight(c, s) && LoaderOk(c, s) && MapperOk(s) && SubmitterOk(c, s)
  }

  lemma InvInit(c: Config)
    requires c.Fetchable()
    ensures Inv(c, Init(c))
  {
  }

  predicate IsFailure(a: Action) { a.FetchFail? || a.SubmitFail? }

  lemma TestKeepsInv(c: Config, s: State)
    requires c.Fetchable() && Inv(c, s) && Enabled(c, s, TestRange)
    ensures Inv(c, ApplyTest(c, s)) && !ApplyTest(c, s).panicked
  {
    hide CountsFrom, Range;
    assert s.cursor > c.End() ==> s.batches == c.Batches();
  }

  lemma FetchKeepsInv(c: Config, s: State, i: nat)
    requires c.Fetchable() && Inv(c, s) && Enabled(c, s, FetchOk(i))
    ensures Inv(c, Apply(c, s, FetchOk(i))) && !Apply(c, s, FetchOk(i)).panicked
  {
  }

  /** A batch that starts inside the range is one of the `Batches()` batches. */
  lemma BatchInRange(c: Config, batches: nat)
    requires c.Fetchable() && c.head + 1 + CONCURRENCY * batches <= c.head + c.count
    ensures batches < c.Batches()
    ensures c.head + CONCURRENCY * batches + CONCURRENCY <= c.head + c.Fetched() < U64 / 2
  {
  }

  lemma SendInFlight(c: Config, s: State)
    requires c.Fetchable() && Inv(c, s) && Enabled(c, s, SendIncoming)
    ensures InFlight(c, ApplySend(s))
  {
    hide CountsFrom, Range;
    BatchInRange(c, s.batches);
    var t := ApplySend(s);
    var next := s.loader.next;
    assert s.loader.results[next] == Some(s.cursor + next);
    assert t.incoming.queue == s.incoming.queue + [Some(c.head + 1 + |s.mapped| + |s.incoming.queue|)];
  }

  lemma SendKeepsInv(c: Config, s: State)
    requires c.Fetchable() && Inv(c, s) && Enabled(c, s, SendIncoming)
    ensures Inv(c, ApplySend(s)) && !ApplySend(s).panicked
  {
    hide InFlight;
    BatchInRange(c, s.batches);
    SendInFlight(c, s);
  }

  lemma MapReceiveInFlight(c: Config, s: State)
    requires c.Fetchable() && Inv(c, s) && Enabled(c, s, MapReceive)
    ensures InFlight(c, ApplyMapReceive(s))
  {
    var t := ApplyMapReceive(s);
    if s.incoming.queue != [] {
      assert s.incoming.queue[0] == Some(c.head + 1 + |s.mapped|);
      assert forall k :: 0 <= k < |t.incoming.queue| ==> t.incoming.queue[k] == s.incoming.queue[k + 1];
    }
  }

  lemma MapReceiveKeepsInv(c: Config, s: State)
    requires c.Fetchable() && Inv(c, s) && Enabled(c, s, MapReceive)
    ensures Inv(c, ApplyMapReceive(s)) && !ApplyMapReceive(s).panicked
  {
    hide InFlight;
    MapReceiveInFlight(c, s);
  }

  lemma MapSendKeepsInv(c: Config, s: State)
    requires c.Fetchable() && Inv(c, s) && Enabled(c, s, MapSend)
    ensures Inv(c, Apply(c, s, MapSend)) && !Apply(c, s, MapSend).panicked
  {
  }

  lemma SubmitReceiveInFlight(c: Config, s: State)
    requires c.Fetchable() && Inv(c, s) && Enabled(c, s, SubmitReceive)
    ensures InFlight(c, ApplySubmitReceive(c, s))
  {
    hide CountsFrom, Range, LoaderOk;
    if s.process.queue != [] {
      CountsOn(s.process.queue, c.head + 1 + Taken(s));
      RangeSnoc(c.head + 1, |s.submitted|);
    }
  }

  lemma CountsOn(queue: seq<nat>, first: nat)
    requires CountsFrom(queue, first) && queue != []
    ensures queue[0] == first && CountsFrom(queue[1..], first + 1)
  {
    forall k | 0 <= k < |queue| - 1
      ensures queue[1..][k] == first + 1 + k
    {
      assert queue[1..][k] == queue[k + 1];
    }
  }

  lemma RangeSnoc(start: nat, n: nat)
    ensures Range(start, n) + [start + n] == Range(start, n + 1)
  {
  }

  lemma QueueHead(c: Config, s: State)
    requires InFlight(c, s) && s.process.queue != []
    ensures s.process.queue[0] == c.head + 1 + Taken(s)
  {
  }

  lemma SubmitReceiveKeepsInv(c: Config, s: State)
    requires c.Fetchable() && Inv(c, s) && Enabled(c, s, SubmitReceive)
    ensures Inv(c, ApplySubmitReceive(c, s)) && !ApplySubmitReceive(c, s).panicked
  {
    hide InFlight;
    SubmitReceiveInFlight(c, s);
    if s.process.queue != [] {
      QueueHead(c, s);
    }
  }

  lemma SubmitFinishKeepsInv(c: Config, s: State)
    requires c.Fetchable() && Inv(c, s) && Enabled(c, s, SubmitFinish)
    ensures Inv(c, Apply(c, s, SubmitFinish)) && !Apply(c, s, SubmitFinish).panicked
  {
  }

  /** The steps that leave all channels alone. */
  lemma OtherKeepsInv(c: Config, s: State, a: Action)
    requires c.Fetchable() && Inv(c, s) && Enabled(c, s, a)
    requires a.Barrier? || a.MapCancelled? || a.SubmitCancelled? || a.Cancel? || IsFailure(a)
    ensures Inv(c, Apply(c, s, a))
    ensures Apply(c, s, a).panicked ==> IsFailure(a)
  {
  }

  /** No step breaks the invariant, and only a failing fetch or addBlock panics:
      nothing is sent on, and nothing closes, a closed channel. */
  lemma StepKeepsInv(c: Config, s: State, a: Action)
    requires c.Fetchable() && Inv(c, s) && Enabled(c, s, a)
    ensures Inv(c, Apply(c, s, a))
    ensures Apply(c, s, a).panicked ==> IsFailure(a)
  {
    match a
    case TestRange => TestKeepsInv(c, s);
    case FetchOk(i) => FetchKeepsInv(c, s, i);
    case SendIncoming => SendKeepsInv(c, s);
    case MapReceive => MapReceiveKeepsInv(c, s);
    case MapSend => MapSendKeepsInv(c, s);
    case SubmitReceive => SubmitReceiveKeepsInv(c, s);
    case SubmitFinish => SubmitFinishKeepsInv(c, s);
    case _ => OtherKeepsInv(c, s, a);
  }

  /** A goroutine panics exactly on a failure, or when it sends on or closes a closed channel. */
  lemma PanicsIff(c: Config, s: State, a: Action)
    requires Enabled(c, s, a)
    ensures Apply(c, s, a).panicked <==>
      || IsFailure(a)
      || (s.incoming.closed && (a.SendIncoming? || (a.TestRange? && s.cursor > c.End())))
      || (s.process.closed && (a.MapSend? || (a.MapReceive? && s.incoming.queue == [])))
  {
    match a
    case TestRange =>
    case SendIncoming =>
    case MapReceive =>
    case MapSend =>
    case SubmitReceive =>
    case _ =>
  }

  /** The mapper drops a nil block: it goes on receiving, and nothing else has changed. */
  lemma NilBlockIsDropped(c: Config, s: State)
    requires Enabled(c, s, MapReceive) && s.incoming.queue != [] && s.incoming.queue[0] == None
    ensures var t := Apply(c, s, MapReceive);
            [None] + t.incoming.queue == s.incoming.queue && t.mapper.Receiving? && t.(incoming := s.incoming) == s
  {
  }

  lemma {:induction false} RunKeepsInv(c: Config, acts: seq<Action>, s: State)
    requires c.Fetchable() && After(c, acts) == Some(s)
    ensures Inv(c, s)
    ensures s.panicked ==> exists i :: 0 <= i < |acts| && IsFailure(acts[i])
  {
    if acts == [] {
      InvInit(c);
    } else {
      var n := |acts| - 1;
      var t := After(c, acts[..n]).value;
      RunKeepsInv(c, acts[..n], t);
      StepKeepsInv(c, t, acts[n]);
      if s.panicked {
        assert IsFailure(acts[n]);
      }
    }
  }

  lemma ReachableInv(c: Config, s: State)
    requires c.Fetchable() && Reachable(c, s)
    ensures Inv(c, s)
  {
    var acts: seq<Action> :| After(c, acts) == Some(s);
    RunKeepsInv(c, acts, s);
  }

  lemma Extend(c: Config, s: State, a: Action)
    requires Reachable(c, s) && Enabled(c, s, a)
    ensures Reachable(c, Apply(c, s, a))
  {
    var acts: seq<Action> :| After(c, acts) == Some(s);
    var longer := acts + [a];
    assert longer[..|longer| - 1] == acts;
    assert After(c, longer) == Some(Apply(c, s, a));
  }

  // ---------- Safety: which blocks are replayed ----------

  /** In every interleaving, with or without cancellation and failures, addBlock has been
      given exactly the next consecutive blocks, none past the end, and the strategy
      has been given a longer run of the same consecutive blocks. */
  lemma SubmitsConsecutiveBlocks(c: Config, s: State)
    requires c.Fetchable() && Reachable(c, s)
    ensures s.submitted == Range(c.Start(), |s.submitted|) && |s.submitted| <= c.count
    ensures forall b :: b in s.submitted ==> c.Start() <= b <= c.End()
    ensures s.mapped == Range(c.Start(), |s.mapped|) && s.submitted <= s.mapped
    ensures s.remaining + |s.submitted| == c.count + (if s.submitter.Adding? then 1 else 0)
  {
    ReachableInv(c, s);
  }

  /** Each step is a step of the sequential loop over start..end, or leaves it where it is. */
  lemma StepRefinesSequentialLoop(c: Config, s: State, a: Action)
    requires c.Fetchable() && Reachable(c, s) && Enabled(c, s, a)
    ensures var t := Apply(c, s, a);
            || t.submitted == s.submitted
            || (t.submitted == s.submitted + [c.Start() + |s.submitted|] && c.Start() + |s.submitted| <= c.End())
  {
    ReachableInv(c, s);
    match a
    case SubmitReceive =>
      if s.process.queue != [] && s.process.queue[0] <= c.End() {
        assert s.dropped == [];
        assert s.process.queue[0] == c.head + 1 + |s.submitted|;
      }
    case _ =>
  }

  /** A submitter that returns without cancellation has replayed every block. */
  lemma SubmitterReplaysAll(c: Config, s: State)
    requires c.Fetchable() && Reachable(c, s)
    requires s.submitter.SubmitterExited? && !s.cancelled
    ensures s.submitted == Range(c.Start(), c.count) && s.remaining == 0
  {
    ReachableInv(c, s);
  }

  /** Once every block has been added, no step of any goroutine, cancelled or not, adds another. */
  lemma NothingLeftToAdd(c: Config, s: State, a: Action)
    requires c.Fetchable() && Reachable(c, s) && Enabled(c, s, a)
    requires |s.submitted| == c.count && !s.submitter.Adding?
    ensures Apply(c, s, a).submitted == s.submitted && !Apply(c, s, a).submitter.Adding?
  {
    ReachableInv(c, s);
    if a.SubmitReceive? && s.process.queue != [] && s.dropped == [] {
      assert s.process.queue[0] == c.head + 1 + Taken(s);
    }
  }

  function Unsent(s: State): nat
    requires s.loader.Sending? ==> s.loader.next <= CONCURRENCY
  {
    if s.loader.Sending? then CONCURRENCY - s.loader.next else 0
  }

  /** Once the submitter has stopped on a block past the end, the loader fetches nothing
      more and at most 23 blocks are left anywhere, so they all fit in the output channel. */
  lemma OvershootFits(c: Config, s: State)
    requires c.Fetchable() && Reachable(c, s) && s.dropped != []
    ensures s.dropped == [c.End() + 1]
    ensures !s.loader.Fetching? && (s.loader.Testing? ==> s.cursor > c.End())
    ensures s.loader.Sending? ==> s.loader.next <= CONCURRENCY
    ensures |s.process.queue| + Held(s) + |s.incoming.queue| + Unsent(s) == c.Fetched() - c.count - 1 <= 23
  {
    ReachableInv(c, s);
  }

  // ---------- Progress ----------

  predicate Finished(s: State) {
    s.loader.LoaderExited? && s.mapper.MapperExited? && s.submitter.SubmitterExited?
  }

  /** The steps of a run in which nothing fails and nobody cancels. */
  predicate IsRegular(a: Action) {
    !IsFailure(a) && !a.Cancel? && !a.MapCancelled? && !a.SubmitCancelled?
  }

  /** No goroutine can move: only an outside cancellation could still happen. */
  ghost predicate Blocked(c: Config, s: State) {
    !s.panicked && !Finished(s) && forall a: Action :: !a.Cancel? ==> !Enabled(c, s, a)
  }

  /** The step the loader can take, unless the input channel is full. */
  lemma LoaderProgress(c: Config, s: State) returns (a: Action)
    requires c.Fetchable() && Inv(c, s) && !s.panicked && !s.loader.LoaderExited?
    requires s.loader.Sending? ==> |s.incoming.queue| < CAPACITY
    ensures IsRegular(a) && Enabled(c, s, a)
  {
    match s.loader
    case Testing => a := TestRange;
    case Sending(_, _) => a := SendIncoming;
    case Fetching(results, pending) =>
      if pending == {} {
        a := Barrier;
      } else {
        var i :| i in pending;
        assert i in WORKERS;
        BatchInRange(c, s.batches);
        a := FetchOk(i);
      }
  }

  /** Without cancellation there is no deadlock: in every reachable state, while any
      goroutine is still running, some regular step is enabled. */
  lemma Progress(c: Config, s: State) returns (a: Action)
    requires c.Fetchable() && Inv(c, s)
    requires !s.cancelled && !s.panicked && !Finished(s)
    ensures IsRegular(a) && Enabled(c, s, a)
  {
    if s.submitter.Adding? {
      a := SubmitFinish;
    } else if s.submitter.Waiting? && (s.process.queue != [] || s.process.closed) {
      a := SubmitReceive;
    } else if s.mapper.Delivering? {
      a := MapSend;
    } else if s.mapper.Receiving? && (s.incoming.queue != [] || s.incoming.closed) {
      a := MapReceive;
    } else {
      a := LoaderProgress(c, s);
    }
  }

  // ---------- Termination ----------

  /** Steps left to the loader: a batch is one test, 25 fetches, one barrier and 25
      sends, and each sent block is good for four more steps downstream. */
  function LoaderWork(c: Config, s: State): int {
    var later := c.Batches() - s.batches - 1;
    match s.loader
    case LoaderExited => 0
    case Testing => 152 * (later + 1) + 1
    case Fetching(_, pending) => 152 * later + 127 + |pending|
    case Sending(_, next) => 152 * later + 1 + 5 * (CONCURRENCY - next)
  }

  function Measure(c: Config, s: State): int {
    LoaderWork(c, s)
    + 4 * |s.incoming.queue| + 3 * Held(s) + 2 * |s.process.queue|
    + (if s.submitter.Adding? then 1 else 0)
    + (if s.mapper.MapperExited? then 0 else 1)
    + (if s.submitter.SubmitterExited? then 0 else 1)
    + (if s.cancelled then 0 else 1)
    + (if s.panicked then 0 else 1)
  }

  lemma SubsetSize(small: set<nat>, big: set<nat>)
    requires small <= big
    ensures |small| <= |big|
  {
    if small != {} {
      var x :| x in small;
      SubsetSize(small - {x}, big - {x});
    }
  }

  lemma {:induction false} InitialSize(n: nat, s: set<nat>)
    requires forall i: nat :: i in s <==> i < n
    ensures |s| == n
  {
    if n == 0 {
      assert s == {};
    } else {
      assert n - 1 in s;
      InitialSize(n - 1, s - {n - 1});
    }
  }

  lemma WorkersSize()
    ensures |WORKERS| == CONCURRENCY
  {
    assert forall i: nat :: i in WORKERS <==> IsWorker(i);
    InitialSize(CONCURRENCY, WORKERS);
  }

  lemma MeasureNonNegative(c: Config, s: State)
    requires c.Fetchable() && Inv(c, s)
    ensures Measure(c, s) >= 0
  {
    if s.loader.Fetching? || s.loader.Sending? {
      BatchInRange(c, s.batches);
    }
  }

  lemma LoaderMeasureFalls(c: Config, s: State, a: Action)
    requires c.Fetchable() && Inv(c, s) && Enabled(c, s, a)
    requires a.TestRange? || a.FetchOk? || a.Barrier?
    ensures Measure(c, Apply(c, s, a)) < Measure(c, s)
  {
    if a.TestRange? {
      WorkersSize();
    }
  }

  lemma SendMeasureFalls(c: Config, s: State)
    requires c.Fetchable() && Inv(c, s) && Enabled(c, s, SendIncoming)
    ensures Measure(c, ApplySend(s)) < Measure(c, s)
  {
    var t := ApplySend(s);
    assert |t.incoming.queue| == |s.incoming.queue| + 1;
    assert LoaderWork(c, t) == LoaderWork(c, s) - 5;
  }

  lemma MapperMeasureFalls(c: Config, s: State, a: Action)
    requires c.Fetchable() && Inv(c, s) && Enabled(c, s, a)
    requires a.MapReceive? || a.MapSend? || a.MapCancelled?
    ensures Measure(c, Apply(c, s, a)) < Measure(c, s)
  {
    assert LoaderWork(c, Apply(c, s, a)) == LoaderWork(c, s);
  }

  lemma OtherMeasureFalls(c: Config, s: State, a: Action)
    requires c.Fetchable() && Inv(c, s) && Enabled(c, s, a)
    requires a.SubmitReceive? || a.SubmitFinish? || a.SubmitCancelled? || a.Cancel? || IsFailure(a)
    ensures Measure(c, Apply(c, s, a)) < Measure(c, s)
  {
    assert LoaderWork(c, Apply(c, s, a)) == LoaderWork(c, s);
  }

  /** Every step of every goroutine, and every failure or cancellation, lowers the measure. */
  lemma MeasureFalls(c: Config, s: State, a: Action)
    requires c.Fetchable() && Inv(c, s) && Enabled(c, s, a)
    ensures Measure(c, Apply(c, s, a)) < Measure(c, s)
  {
    match a
    case TestRange => LoaderMeasureFalls(c, s, a);
    case FetchOk(_) => LoaderMeasureFalls(c, s, a);
    case Barrier => LoaderMeasureFalls(c, s, a);
    case SendIncoming => SendMeasureFalls(c, s);
    case MapReceive => MapperMeasureFalls(c, s, a);
    case MapSend => MapperMeasureFalls(c, s, a);
    case MapCancelled => MapperMeasureFalls(c, s, a);
    case _ => OtherMeasureFalls(c, s, a);
  }

  /** Hence no schedule runs forever: a run has at most 152 steps a batch and 5 more. */
  lemma {:induction false} RunsAreBounded(c: Config, acts: seq<Action>, s: State)
    requires c.Fetchable() && After(c, acts) == Some(s)
    ensures Inv(c, s)
    ensures |acts| <= 152 * c.Batches() + 5 - Measure(c, s)
  {
    if acts == [] {
      InvInit(c);
    } else {
      var n := |acts| - 1;
      var t := After(c, acts[..n]).value;
      RunsAreBounded(c, acts[..n], t);
      StepKeepsInv(c, t, acts[n]);
      MeasureFalls(c, t, acts[n]);
    }
  }

  lemma UndisturbedRunFinishes(c: Config, s: State)
    requires c.Fetchable() && Inv(c, s) && !s.cancelled && !s.panicked
    requires forall a: Action :: IsRegular(a) ==> !Enabled(c, s, a)
    ensures Finished(s)
  {
    hide Inv, Finished, IsRegular, Enabled;
    if !Finished(s) {
      var a := Progress(c, s);
      assert false;
    }
  }

  lemma FinishedShape(c: Config, s: State)
    requires c.Fetchable() && Inv(c, s) && !s.cancelled && Finished(s)
    ensures |s.submitted| == c.count && s.remaining == 0
    ensures s.submitted == Range(c.head + 1, c.count)
    ensures s.incoming == Channel([], true) && s.process.closed
    ensures s.batches == c.Batches() && |s.mapped| == c.Fetched() && s.mapped == Range(c.head + 1, c.Fetched())
    ensures |s.dropped| + |s.process.queue| == c.Fetched() - c.count
    ensures s.dropped == [] ==> s.process.queue == []
  {
  }

  lemma RoundedUp(count: nat)
    ensures CONCURRENCY * ((count + CONCURRENCY - 1) / CONCURRENCY) == count <==> count % CONCURRENCY == 0
  {
  }

  /** A run that nothing disturbs, continued until no step is left, has replayed
      start..end in order, emptied neither channel early and closed both. */
  lemma UndisturbedRunCompletes(c: Config, s: State)
    requires c.Fetchable() && Reachable(c, s) && !s.cancelled && !s.panicked
    requires forall a: Action :: IsRegular(a) ==> !Enabled(c, s, a)
    ensures Finished(s)
    ensures s.submitted == Range(c.Start(), c.count) && s.remaining == 0
    ensures s.mapped == Range(c.Start(), c.Fetched())
    ensures s.incoming == Channel([], true) && s.process.closed
    ensures s.dropped != [] <==> c.count % CONCURRENCY != 0
    ensures |s.process.queue| == if s.dropped == [] then 0 else c.Fetched() - c.count - 1
  {
    hide Inv, Reachable, Enabled, IsRegular, Finished, Range;
    ReachableInv(c, s);
    UndisturbedRunFinishes(c, s);
    FinishedShape(c, s);
    RoundedUp(c.count);
    AtMostOneDropped(c, s);
  }

  lemma AtMostOneDropped(c: Config, s: State)
    requires Inv(c, s)
    ensures |s.dropped| <= 1
  {
  }

  lemma MeasureBounded(c: Config, s: State)
    requires c.Fetchable() && Reachable(c, s)
    ensures 0 <= Measure(c, s)
  {
    ReachableInv(c, s);
    MeasureNonNegative(c, s);
  }

  /** One more step from a reachable state: reachable again, and nearer to the end. */
  lemma StepAdvances(c: Config, s: State, a: Action)
    requires c.Fetchable() && Reachable(c, s) && Enabled(c, s, a)
    ensures Reachable(c, Apply(c, s, a))
    ensures 0 <= Measure(c, Apply(c, s, a)) < Measure(c, s)
  {
    ReachableInv(c, s);
    Extend(c, s, a);
    MeasureBounded(c, Apply(c, s, a));
    MeasureFalls(c, s, a);
  }
}
