/** What `daemon::run` sets up for its queues: the buffer table and, with it, a configuration for
    which everything proved about the batch queue holds. */
module DaemonRun {
  import opened Uapi
  import opened Seqs
  import opened BatchQueue
  import opened BatchInvariant
  import BatchRuns
  import BatchLayout
  import FR = FetchRing

  predicate UsesTable(f: Features) {
    f.zeroCopy || f.autoBufReg
  }

  /** `daemon_run_t`: the table gets at least one slot per tag if the device uses it. */
  function NrBuffers(f: Features, nrBuffers: nat, depth: nat): nat {
    if UsesTable(f) && nrBuffers < depth then depth else nrBuffers
  }

  /** `io_run_dev_t`: updating the last tag's slot fails if the table is too small. */
  predicate TableCheck(f: Features, tableSize: nat, depth: nat)
    requires depth > 0
  {
    UsesTable(f) ==> depth - 1 < tableSize
  }

  /** The configuration of a batch queue as its constructor computes it. */
  function ConfigOf(f: Features, depth: nat, page: nat, tableSize: nat): Config
    requires page > 0
  {
    Config(depth, FR.Capacity(depth, page), f, BatchLayout.ElemSize(f), tableSize)
  }

  /** The check of `run_dev` accepts exactly the valid configurations, and the table that
      `daemon::run` makes always passes it. */
  lemma RunConfigIsValid(f: Features, depth: nat, page: nat, tableSize: nat, nrBuffers: nat)
    requires 0 < depth < U16 && page > 0
    ensures ValidConfig(ConfigOf(f, depth, page, tableSize)) <==> TableCheck(f, tableSize, depth)
    ensures TableCheck(f, NrBuffers(f, nrBuffers, depth), depth)
    ensures forall n :: nrBuffers <= n && TableCheck(f, n, depth) ==> nrBuffers <= NrBuffers(f, nrBuffers, depth) <= n
  {
    FR.CapacityHoldsAllTags(depth, page);
  }

  /** In every run of a queue that passed the check, every table slot in use exists, and its tag's
      worker is the one holding it. */
  lemma TableSlotsExist(c: Config, s0: State, ls: seq<Label>, s: State, t: Tag)
    requires BatchRuns.Reaches(c, s0, ls, s) && t in s.table
    ensures t < c.tableSize && t < |s.srv.workers| && Holding(s.srv.workers[t])
  {
    BatchRuns.ReachesInv(c, s0, ls, s);
    BatchRuns.ExactlyOnePlace(c, s0, ls, s, t);
  }
}
