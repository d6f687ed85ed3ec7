/** The trace-derived part of a block's statistics, filled in after the block is built. */
module BlockStats {
  import opened Options
  import opened Uint64
  import opened OpCodeTable

  /** How long the engine took for each of its calls, and for all of them. */
  datatype Timings = Timings(fcu: int, get: int, newPayload: int, fcuNoAttrs: int, total: int)

  /** What enrich adds to a block's record from its receipts and traces. The share of successful
      transactions is None if there are none at all, when the code divides zero by zero. */
  datatype Enrichment = Enrichment(
    gasUsed: u64,
    success: Option<real>,
    opCodes: Table,
    accountsChanged: u64,
    storageTriesChanged: u64,
    slotsChanged: u64)

  /** What a record holds besides the block itself. */
  datatype Measured = Measured(timings: Timings, enrichment: Enrichment)

  class TraceStats {
    var opCodes: Table
    var accountsChanged: u64
    var storageTriesChanged: u64
    var slotsChanged: u64

    constructor ()
      ensures opCodes == map[] && accountsChanged == storageTriesChanged == slotsChanged == 0
    {
      opCodes := map[];
      accountsChanged, storageTriesChanged, slotsChanged := 0, 0, 0;
    }
  }
}
