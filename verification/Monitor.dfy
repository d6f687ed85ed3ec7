/**
 The submitter and the monitor of a run, interleaved at every access to what they share:
 the destination head, the recorded statistics, and what storage holds. The submitter
 moves the head and only then records; a write saves the records and only then marks the
 last of them as written, whatever was recorded in between.
 */
module Monitor {
  import opened Options
  import opened Uint64
  import Pipeline
  import opened Stats

  /** `written` is where the recorder starts counting: the configured start block. */
  datatype Config = Config(head: u64, count: u64, written: u64) {
    predicate Ok() { written <= head && head + count < U64 }
  }

  datatype Submitter = Ready | HeadMoved | Recorded | Done

  /** `final` tells the write on completion from a periodic one. */
  datatype Monitor =
    | Idle
    | Deciding(head: u64)
    | Saving(attempt: nat, final: bool)
    | Marking(saved: bool, final: bool)
    | Stopped(saved: bool)

  datatype State = State(
    head: u64,
    submitter: Submitter,
    remaining: u64,
    recorded: seq<u64>,
    monitor: Monitor,
    lastWritten: u64,
    stored: Option<seq<u64>>)

  datatype Action =
    | MoveHead
    | Record
    | CountDown
    | Finish
    | ReadHead
    | Decide
    | SaveOk
    | SaveFail
    | Mark
    | SeeDone

  function Init(c: Config): State {
    State(c.head, Ready, c.count, [], Idle, c.written, None)
  }

  /** The submitter is given exactly `count` blocks, as module Pipeline proves. */
  predicate Enabled(c: Config, s: State, a: Action) {
    match a
    case MoveHead => s.submitter.Ready? && |s.recorded| < c.count
    case Record => s.submitter.HeadMoved?
    case CountDown => s.submitter.Recorded?
    case Finish => s.submitter.Ready? && |s.recorded| >= c.count
    case ReadHead => s.monitor.Idle?
    case Decide => s.monitor.Deciding?
    case SaveOk => s.monitor.Saving?
    case SaveFail => s.monitor.Saving?
    case Mark => s.monitor.Marking?
    case SeeDone => s.monitor.Idle? && s.submitter.Done?
  }

  function Apply(c: Config, s: State, a: Action): State
    requires Enabled(c, s, a)
  {
    match a
    case MoveHead => s.(head := Add64(s.head, 1), submitter := HeadMoved)
    case Record => s.(recorded := s.recorded + [s.head], submitter := Recorded)
    case CountDown => s.(remaining := Sub64(s.remaining, 1), submitter := Ready)
    case Finish => s.(submitter := Done)
    case ReadHead => s.(monitor := Deciding(s.head))
    case Decide =>
      s.(monitor := if Sub64(s.monitor.head, s.lastWritten) >= WRITE_INTERVAL then Saving(0, false) else Idle)
    case SaveOk => s.(stored := Some(s.recorded), monitor := Marking(true, s.monitor.final))
    case SaveFail =>
      s.(monitor := if s.monitor.attempt + 1 < WRITE_ATTEMPTS then Saving(s.monitor.attempt + 1, s.monitor.final)
                    else Marking(false, s.monitor.final))
    case Mark =>
      s.(lastWritten := if s.recorded == [] then s.lastWritten else s.recorded[|s.recorded| - 1],
         monitor := if s.monitor.final then Stopped(s.monitor.saved) else Idle)
    case SeeDone => s.(monitor := Saving(0, true))
  }

  ghost function After(c: Config, acts: seq<Action>): Option<State> {
    if acts == [] then Some(Init(c))
    else
      var n := |acts| - 1;
      match After(c, acts[..n])
      case None => None
      case Some(s) => if Enabled(c, s, acts[n]) then Some(Apply(c, s, acts[n])) else None
  }

  ghost predicate Reachable(c: Config, s: State) {
    exists acts: seq<Action> :: After(c, acts) == Some(s)
  }

  // ---------- The invariant ----------

  ghost predicate SubmitterOk(c: Config, s: State) {
    && s.recorded == Pipeline.Range(c.head + 1, |s.recorded|)
    && |s.recorded| <= c.count
    && s.head == c.head + |s.recorded| + (if s.submitter.HeadMoved? then 1 else 0)
    && s.head <= c.head + c.count
    && s.remaining + |s.recorded| == c.count + (if s.submitter.Recorded? then 1 else 0)
    && (s.submitter.Done? ==> |s.recorded| == c.count)
  }

  predicate Final(m: Monitor) {
    (m.Saving? && m.final) || (m.Marking? && m.final) || m.Stopped?
  }

  ghost predicate MonitorOk(c: Config, s: State) {
    && (s.lastWritten == c.written || s.lastWritten > c.head)
    && s.lastWritten <= c.head + |s.recorded|
    && (s.monitor.Deciding? ==> s.lastWritten <= s.monitor.head <= s.head)
    && (s.stored.Some? ==> s.stored.value <= s.recorded)
    && (Final(s.monitor) ==> s.submitter.Done?)
    && ((s.monitor.Marking? || s.monitor.Stopped?) && s.monitor.saved && Final(s.monitor) ==>
          s.stored == Some(s.recorded))
    && (s.monitor.Stopped? && c.count > 0 ==> s.lastWritten == c.head + c.count)
  }

  ghost predicate Inv(c: Config, s: State) {
    SubmitterOk(c, s) && MonitorOk(c, s)
  }

  lemma StepKeepsInv(c: Config, s: State, a: Action)
    requires c.Ok() && Inv(c, s) && Enabled(c, s, a)
    ensures Inv(c, Apply(c, s, a))
  {
    assert a.Record? ==> Apply(c, s, a).recorded == Pipeline.Range(c.head + 1, |s.recorded| + 1);
  }

  lemma {:induction false} RunKeepsInv(c: Config, acts: seq<Action>, s: State)
    requires c.Ok() && After(c, acts) == Some(s)
    ensures Inv(c, s)
  {
    if acts != [] {
      var n := |acts| - 1;
      var t := After(c, acts[..n]).value;
      RunKeepsInv(c, acts[..n], t);
      StepKeepsInv(c, t, acts[n]);
    }
  }

  lemma ReachableInv(c: Config, s: State)
    requires c.Ok() && Reachable(c, s)
    ensures Inv(c, s)
  {
    var acts: seq<Action> :| After(c, acts) == Some(s);
    RunKeepsInv(c, acts, s);
  }

  // ---------- What holds in every interleaving ----------

  /** Records and remaining count add up, between iterations of the submitter's loop. */
  lemma RemainingAndRecorded(c: Config, s: State)
    requires c.Ok() && Reachable(c, s)
    ensures s.recorded == Pipeline.Range(c.head + 1, |s.recorded|) && |s.recorded| <= c.count
    ensures s.submitter.Ready? || s.submitter.Done? ==> s.remaining + |s.recorded| == c.count
    ensures s.submitter.Done? ==> s.remaining == 0
  {
    ReachableInv(c, s);
  }

  /** The subtraction that decides on a periodic write never wraps. */
  lemma GapNeverWraps(c: Config, s: State)
    requires c.Ok() && Reachable(c, s) && s.monitor.Deciding?
    ensures Sub64(s.monitor.head, s.lastWritten) == s.monitor.head - s.lastWritten
  {
    ReachableInv(c, s);
  }

  /** When a tick ends, either the gap it found was under 100, or the last written block is
      the last record there is (nothing is marked while there is no record). */
  lemma TickOutcome(c: Config, s: State, a: Action)
    requires c.Ok() && Reachable(c, s) && Enabled(c, s, a)
    requires a.Decide? || a.Mark?
    requires Apply(c, s, a).monitor.Idle?
    ensures var t := Apply(c, s, a);
            || (a.Decide? && s.monitor.head - t.lastWritten < 100)
            || t.recorded == []
            || t.lastWritten == c.head + |t.recorded|
  {
    ReachableInv(c, s);
  }

  /** The write on completion covers every record: if it succeeds, storage holds one record
      per block in order, whatever happened to the periodic writes. */
  lemma FinalWriteCoversAll(c: Config, s: State)
    requires c.Ok() && Reachable(c, s) && s.monitor.Stopped?
    ensures s.recorded == Pipeline.Range(c.head + 1, c.count) && s.remaining == 0
    ensures s.monitor.saved ==> s.stored == Some(Pipeline.Range(c.head + 1, c.count))
  {
    ReachableInv(c, s);
  }

  // ---------- Marking more than was saved ----------

  /** How many records storage holds; none before the first successful write. */
  function StoredCount(s: State): nat {
    match s.stored
    case None => 0
    case Some(records) => |records|
  }

  /** A block is marked as written although what storage holds stops short of it. */
  predicate Stale(c: Config, s: State) {
    s.lastWritten > c.head + StoredCount(s)
  }

  ghost predicate NoSaveFails(acts: seq<Action>) {
    forall i :: 0 <= i < |acts| ==> !acts[i].SaveFail?
  }

  ghost predicate ReachableSaving(c: Config, s: State) {
    exists acts: seq<Action> :: After(c, acts) == Some(s) && NoSaveFails(acts)
  }

  lemma Extend(c: Config, s: State, a: Action)
    requires ReachableSaving(c, s) && Enabled(c, s, a) && !a.SaveFail?
    ensures ReachableSaving(c, Apply(c, s, a))
  {
    var acts: seq<Action> :| After(c, acts) == Some(s) && NoSaveFails(acts);
    var longer := acts + [a];
    assert longer[..|longer| - 1] == acts;
    assert After(c, longer) == Some(Apply(c, s, a));
  }

  lemma ExtendAny(c: Config, s: State, a: Action)
    requires Reachable(c, s) && Enabled(c, s, a)
    ensures Reachable(c, Apply(c, s, a))
  {
    var acts: seq<Action> :| After(c, acts) == Some(s);
    var longer := acts + [a];
    assert longer[..|longer| - 1] == acts;
    assert After(c, longer) == Some(Apply(c, s, a));
  }

  lemma Then(c: Config, s: State, a: Action) returns (t: State)
    requires c.Ok() && ReachableSaving(c, s) && Inv(c, s) && Enabled(c, s, a) && !a.SaveFail?
    ensures t == Apply(c, s, a) && ReachableSaving(c, t) && Inv(c, t)
  {
    t := Apply(c, s, a);
    Extend(c, s, a);
    StepKeepsInv(c, s, a);
  }

  /** Replay n blocks while the monitor stays idle. */
  lemma {:induction false} IdleRun(c: Config, n: nat) returns (s: State)
    requires c.Ok() && n <= c.count
    ensures ReachableSaving(c, s) && Inv(c, s)
    ensures s.submitter.Ready? && s.monitor.Idle? && |s.recorded| == n && s.lastWritten == c.written && s.stored.None?
  {
    if n == 0 {
      s := Init(c);
      assert After(c, []) == Some(s);
    } else {
      s := IdleRun(c, n - 1);
      s := Then(c, s, MoveHead);
      s := Then(c, s, Record);
      s := Then(c, s, CountDown);
    }
  }

  // ---------- With failing saves ----------

  /** Fail all attempts of a write. */
  lemma {:induction false} FailWrite(c: Config, s: State) returns (t: State)
    requires Reachable(c, s) && s.monitor.Saving? && s.monitor.attempt < WRITE_ATTEMPTS
    ensures Reachable(c, t) && t == s.(monitor := Marking(false, s.monitor.final))
    decreases WRITE_ATTEMPTS - s.monitor.attempt
  {
    ExtendAny(c, s, SaveFail);
    t := Apply(c, s, SaveFail);
    if t.monitor.Saving? {
      t := FailWrite(c, t);
    }
  }

  /** Replay everything, then fail the write on completion. */
  lemma UnsavedRun(c: Config) returns (s: State)
    requires c.Ok() && c.count > 0
    ensures Reachable(c, s) && Stale(c, s) && s.stored.None?
  {
    s := IdleRun(c, c.count);
    s := Then(c, s, Finish);
    s := Then(c, s, SeeDone);
    assert Reachable(c, s);
    s := FailWrite(c, s);
    ExtendAny(c, s, Mark);
    s := Apply(c, s, Mark);
  }

  /** If saves can fail, some schedule marks a block that storage does not hold if and only if
      the run has a block at all. */
  lemma UnsavedIff(c: Config)
    requires c.Ok()
    ensures (exists s: State :: Reachable(c, s) && Stale(c, s)) <==> c.count > 0
  {
    if c.count > 0 {
      var s := UnsavedRun(c);
    } else if s: State :| Reachable(c, s) && Stale(c, s) {
      ReachableInv(c, s);
      assert false;
    }
  }

  // ---------- Without failing saves ----------

  /** The whole run stays within one write interval of the recorder's starting point. */
  predicate Short(c: Config) {
    c.count == 0 || c.head + c.count - c.written < 100
  }

  /** In a short run nothing but the write on completion ever reaches storage. */
  predicate Quiet(c: Config, s: State) {
    && (s.monitor.Saving? || s.monitor.Marking? ==> s.monitor.final)
    && (s.monitor.Marking? ==> s.stored.Some?)
    && (s.lastWritten > c.head ==> s.stored.Some?)
    && (s.stored.Some? ==> s.stored == Some(s.recorded) && s.submitter.Done?)
  }

  lemma QuietStep(c: Config, s: State, a: Action)
    requires c.Ok() && c.count > 0 && Short(c) && Inv(c, s) && Quiet(c, s) && Enabled(c, s, a) && !a.SaveFail?
    ensures Quiet(c, Apply(c, s, a))
  {
  }

  lemma {:induction false} ShortRunIsQuiet(c: Config, acts: seq<Action>, s: State)
    requires c.Ok() && c.count > 0 && Short(c) && After(c, acts) == Some(s) && NoSaveFails(acts)
    ensures Inv(c, s) && Quiet(c, s)
  {
    RunKeepsInv(c, acts, s);
    if acts != [] {
      var n := |acts| - 1;
      var t := After(c, acts[..n]).value;
      ShortRunIsQuiet(c, acts[..n], t);
      QuietStep(c, t, acts[n]);
    }
  }

  /** Record the last block between a successful save and the mark that follows it. */
  lemma StaleRun(c: Config) returns (s: State)
    requires c.Ok() && !Short(c)
    ensures ReachableSaving(c, s) && Stale(c, s)
  {
    s := IdleRun(c, c.count - 1);
    s := Then(c, s, MoveHead);
    s := Then(c, s, ReadHead);
    s := Then(c, s, Decide);
    s := Then(c, s, SaveOk);
    s := Then(c, s, Record);
    s := Then(c, s, Mark);
  }

  lemma StaleNeedsLongRun(c: Config, s: State)
    requires c.Ok() && ReachableSaving(c, s) && Stale(c, s)
    ensures !Short(c)
  {
    var acts: seq<Action> :| After(c, acts) == Some(s) && NoSaveFails(acts);
    RunKeepsInv(c, acts, s);
    if c.count > 0 && Short(c) {
      ShortRunIsQuiet(c, acts, s);
      assert false;
    }
  }

  /** Even if every save succeeds, some schedule marks a block that was not in what it saved, if
      and only if the run has a block and leaves the write interval. */
  lemma StaleIff(c: Config)
    requires c.Ok()
    ensures (exists s: State :: ReachableSaving(c, s) && Stale(c, s)) <==> !Short(c)
  {
    if !Short(c) {
      var s := StaleRun(c);
    } else if s: State :| ReachableSaving(c, s) && Stale(c, s) {
      StaleNeedsLongRun(c, s);
      assert false;
    }
  }

  /** Both at their smallest: one block whose only write fails, and a hundred blocks all of
      whose writes succeed. */
  lemma StaleExamples() returns (unsaved: State, stale: State)
    ensures Reachable(Config(0, 1, 0), unsaved) && Stale(Config(0, 1, 0), unsaved)
    ensures ReachableSaving(Config(0, 100, 0), stale) && Stale(Config(0, 100, 0), stale)
  {
    unsaved := UnsavedRun(Config(0, 1, 0));
    stale := StaleRun(Config(0, 100, 0));
  }
}
