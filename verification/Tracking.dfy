/** The per-process version maps the page-fault handler fills, and the permissions they stand for. */
module Tracking {
  import opened Memory
  import opened Segments

  /** Permission of one page of the local heap, as mprotect set it. */
  datatype Permission = NoAccess | ReadOnly | ReadWrite

  /** `read_set_version`, `write_set_version` and `local_page_version` of one process. */
  datatype Tracker = Tracker(readSet: Versions, writeSet: Versions, snapshot: Versions)

  /** The maps right after AtomicBegin. */
  function Begun(global: Versions): Tracker {
    Tracker(map[], map[], global)
  }

  function HandleReads(k: Tracker, p: Page): Tracker {
    k.(readSet := k.readSet[p := Version(k.snapshot, p)])
  }

  function HandleWrites(k: Tracker, p: Page): Tracker {
    k.(writeSet := k.writeSet[p := Version(k.snapshot, p) + 1])
  }

  /** The fault handler: a first fault counts as a read, a second as a write. */
  function Faulted(k: Tracker, p: Page): Tracker {
    if p in k.readSet then HandleWrites(k, p) else HandleReads(k, p)
  }

  /** Permission of `p` after the faults recorded in `k`. */
  function Granted(k: Tracker, p: Page): Permission {
    if p in k.writeSet then ReadWrite else if p in k.readSet then ReadOnly else NoAccess
  }

  predicate Permits(m: Permission, op: Op) {
    (op.Load? ==> m != NoAccess) && (op.Store? ==> m == ReadWrite)
  }

  /** The validation the commit runs: pages absent from the global table are skipped. */
  predicate Consistent(readSet: Versions, global: Versions) {
    forall p :: p in readSet && p in global ==> global[p] == readSet[p]
  }

  /** What validation is for: every recorded version is still the current one. */
  predicate Current(readSet: Versions, global: Versions) {
    forall p :: p in readSet ==> Version(global, p) == readSet[p]
  }
}
