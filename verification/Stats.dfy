/** Recording the statistics of the replayed blocks, and writing them to storage. */
module Stats {
  import opened Options
  import opened Uint64
  import opened BlockStats

  const WRITE_ATTEMPTS: nat := 3
  /** How far, in blocks, the destination may be ahead of the last written block. */
  const WRITE_INTERVAL: nat := 100

  datatype BlockCreationStats = BlockCreationStats(
    blockNumber: u64,
    blockHash: nat,
    txnCount: nat,
    gasLimit: u64,
    measured: Measured)

  class StoredStats {
    var stats: seq<BlockCreationStats>
    var lastBlockWritten: u64
    /** What the storage behind this recorder holds; None before the first write. */
    var stored: Option<seq<BlockCreationStats>>

    constructor (startBlock: u64)
      ensures stats == [] && lastBlockWritten == startBlock && stored == None
    {
      stats, lastBlockWritten, stored := [], startBlock, None;
    }

    method RecordBlockStats(bcs: BlockCreationStats)
      modifies `stats
      ensures stats == old(stats) + [bcs]
    {
      stats := stats + [bcs];
    }

    /** Write everything recorded so far, in up to three attempts, of which the i-th succeeds if
        accepts(i). The last written block is noted whether or not one did. */
    method Write(accepts: nat -> bool) returns (ok: bool)
      modifies `stored, `lastBlockWritten
      ensures ok <==> exists i: nat :: i < 3 && accepts(i)
      ensures stored == if ok then Some(stats) else old(stored)
      ensures lastBlockWritten == if stats == [] then old(lastBlockWritten) else stats[|stats| - 1].blockNumber
    {
      ok := false;
      var attempt := 0;
      while attempt < WRITE_ATTEMPTS && !ok
        invariant attempt <= WRITE_ATTEMPTS
        invariant if ok then exists i: nat :: i < WRITE_ATTEMPTS && accepts(i)
                  else forall i: nat :: i < attempt ==> !accepts(i)
        invariant stored == if ok then Some(stats) else old(stored)
        invariant lastBlockWritten == old(lastBlockWritten)
        decreases WRITE_ATTEMPTS - attempt
      {
        if accepts(attempt) {
          stored := Some(stats);
          ok := true;
        }
        attempt := attempt + 1;
      }
      if |stats| > 0 {
        lastBlockWritten := stats[|stats| - 1].blockNumber;
      }
    }
  }

  /** Where a benchmark records: nowhere while walking up to the start block. */
  datatype Recorder = NoOp | Recorder(target: StoredStats)
}
