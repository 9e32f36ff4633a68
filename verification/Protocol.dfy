/** The runtime as a transition system: forked processes over one shared heap, every schedule
    of their steps allowed. */
module Protocol {
  import opened Memory
  import opened Segments
  import opened Tracking

  /** Whether the library was built with NO_ORDER defined. */
  datatype Build = NoOrder | Ordered

  datatype Phase =
    | Beginning               // in AtomicBegin, before the version snapshot
    | Running                 // executing user code
    | AwaitingPredecessor     // in AtomicCommit, waiting for predecessor_
    | AwaitingMutex
    | Validating              // holds the mutex
    | Installing(rest: set<Page>)  // holds the mutex; `rest` still has to be copied or bumped
    | Aborting                // validation failed, private pages not yet dropped
    | Synced                  // segment committed; about to fork, wait or leave
    | Exited

  /** `accesses`, `since` and `aborts` are history: accesses made by this attempt, the number of
      commits when it took its snapshot (or last failed), and the failed validations so far. */
  datatype Process = Process(
    parent: nat, predecessor: nat, handles: seq<nat>,
    saved: Context, attempt: Attempt, tracker: Tracker, phase: Phase,
    accesses: nat, since: nat, aborts: nat)

  datatype Mutex = Free | Held(holder: nat)

  datatype Commit = Commit(pid: nat, wrote: set<Page>)

  /** A pid is an index into `procs`; pid 0 is the process of the wrapped main, which nobody waits
      for, so a predecessor of 0 means none. `reaped` are the exited processes the kernel has
      forgotten. `log` is history: the committed segments in commit order. */
  datatype State = State(
    heap: Heap, versions: Versions, mutex: Mutex, rollbacks: nat,
    procs: seq<Process>, reaped: set<nat>, log: seq<Commit>)

  datatype Action =
    | Snapshot                // AtomicBegin
    | Fault                   // SegfaultHandler
    | Touch                   // the load or store itself
    | CommitEmpty             // AtomicCommit, nothing read or written
    | EndSegment              // AtomicCommit, up to the wait
    | PredecessorGone         // WaitExited(predecessor_) returns
    | Lock
    | Validate                // IsHeapConsistent, and the rollback counter
    | CopyCell(page: Page, offset: Offset)  // part of the memcpy of CommitHeap
    | Bump(bumped: Page)      // the new version of one copied page
    | Unlock                  // UpdateHeap and unlock
    | Abort                   // AtomicAbort
    | Fork
    | JoinDone                // WaitExited(t.tid) returns
    | Leave

  datatype Event = Event(pid: nat, action: Action)

  function Next(P: Program, p: Process): Op {
    P.next(p.attempt.ctx)
  }

  /** WaitExited(t) returns in process `i`: waitpid collects an own child once it has exited; for
      any other process `kill(t, 0)` keeps succeeding until somebody has reaped it. */
  predicate WaitOver(s: State, i: nat, t: nat) {
    t == 0 ||
    (t < |s.procs| && s.procs[t].phase.Exited? &&
     (s.procs[t].parent == i || t in s.reaped ||
      (s.procs[t].parent < |s.procs| && s.procs[s.procs[t].parent].phase.Exited?)))
  }

  function Collect(s: State, i: nat, t: nat): set<nat> {
    if 0 < t < |s.procs| && s.procs[t].parent == i then s.reaped + {t} else s.reaped
  }

  predicate Enabled(P: Program, s: State, e: Event) {
    e.pid < |s.procs| &&
    var p := s.procs[e.pid];
    var op := Next(P, p);
    match e.action
    case Snapshot => p.phase.Beginning? && s.mutex.Free?
    case Fault => p.phase.Running? && IsAccess(op) && !Permits(Granted(p.tracker, op.a.page), op)
    case Touch => p.phase.Running? && IsAccess(op) && Permits(Granted(p.tracker, op.a.page), op)
    case CommitEmpty => p.phase.Running? && !IsAccess(op) && p.tracker.readSet == map[] && p.tracker.writeSet == map[]
    case EndSegment => p.phase.Running? && !IsAccess(op) && !(p.tracker.readSet == map[] && p.tracker.writeSet == map[])
    case PredecessorGone => p.phase.AwaitingPredecessor? && WaitOver(s, e.pid, p.predecessor)
    case Lock => p.phase.AwaitingMutex? && s.mutex.Free?
    case Validate => p.phase.Validating?
    // memcpy: storing the value a cell already holds is no step
    case CopyCell(g, o) =>
      p.phase.Installing? && g in p.phase.rest && ViewPage(s.heap, p.attempt.copies, g)[o] != s.heap[g][o]
    case Bump(g) =>
      p.phase.Installing? && g in p.phase.rest && g in p.tracker.writeSet && ViewPage(s.heap, p.attempt.copies, g) == s.heap[g]
    case Unlock => p.phase.Installing? && p.phase.rest == {}
    case Abort => p.phase.Aborting?
    case Fork => p.phase.Synced? && op.Create?
    case JoinDone =>
      p.phase.Synced? && op.Join? && op.handle < |p.handles| && WaitOver(s, e.pid, p.handles[op.handle])
    case Leave => p.phase.Synced? && op.Exit?
  }

  function Put(s: State, i: nat, p: Process): State
    requires i < |s.procs|
  {
    s.(procs := s.procs[i := p])
  }

  function Resume(P: Program, p: Process, v: int): Process {
    var c := P.after(p.attempt.ctx, v);
    p.(saved := c, attempt := Start(c), phase := Beginning)
  }

  /** The forked child: a copy of its parent, about to begin the thread function. */
  function Child(b: Build, p: Process, i: nat, c: Context, logged: nat): Process {
    p.(parent := i, predecessor := if b.Ordered? then p.predecessor else 0,
       saved := c, attempt := Start(c), phase := Beginning, accesses := 0, since := logged, aborts := 0)
  }

  function Forked(P: Program, b: Build, s: State, i: nat): State
    requires i < |s.procs| && Next(P, s.procs[i]).Create?
  {
    var p := s.procs[i];
    var pid := |s.procs|;
    var parent := Resume(P, p, |p.handles|).(predecessor := pid, handles := p.handles + [pid]);
    s.(procs := s.procs[i := parent] + [Child(b, p, i, Next(P, p).child, |s.log|)])
  }

  function Validated(s: State, i: nat): State
    requires i < |s.procs|
  {
    var p := s.procs[i];
    if Consistent(p.tracker.readSet, s.versions) then
      Put(s, i, p.(phase := Installing(p.tracker.writeSet.Keys)))
        .(log := s.log + [Commit(i, p.tracker.writeSet.Keys)])
    else
      Put(s, i, p.(phase := Aborting, since := |s.log|, aborts := p.aborts + 1))
        .(mutex := Free, rollbacks := s.rollbacks + 1)
  }

  function Apply(P: Program, b: Build, s: State, e: Event): State
    requires Enabled(P, s, e)
  {
    var i := e.pid;
    var p := s.procs[i];
    match e.action
    case Snapshot =>
      Put(s, i, p.(tracker := Begun(s.versions), phase := Running, accesses := 0, since := |s.log|))
    case Fault => Put(s, i, p.(tracker := Faulted(p.tracker, Next(P, p).a.page)))
    case Touch => Put(s, i, p.(attempt := Access(P, s.heap, p.attempt), accesses := p.accesses + 1))
    case CommitEmpty => Put(s, i, p.(phase := Synced)).(log := s.log + [Commit(i, {})])
    case EndSegment => Put(s, i, p.(phase := AwaitingPredecessor))
    case PredecessorGone =>
      Put(s, i, p.(phase := AwaitingMutex)).(reaped := Collect(s, i, p.predecessor))
    case Lock => Put(s, i, p.(phase := Validating)).(mutex := Held(i))
    case Validate => Validated(s, i)
    case CopyCell(g, o) =>
      s.(heap := Write(s.heap, At(g, o), ViewPage(s.heap, p.attempt.copies, g)[o]))
    case Bump(g) =>
      Put(s, i, p.(phase := Installing(p.phase.rest - {g})))
        .(versions := s.versions[g := p.tracker.writeSet[g]])
    case Unlock => Put(s, i, p.(phase := Synced, attempt := p.attempt.(copies := map[]))).(mutex := Free)
    case Abort => Put(s, i, p.(phase := Beginning, attempt := Start(p.saved)))
    case Fork => Forked(P, b, s, i)
    case JoinDone =>
      Put(s, i, Resume(P, p, 0)).(reaped := Collect(s, i, p.handles[Next(P, p).handle]))
    case Leave => Put(s, i, p.(phase := Exited))
  }

  /** One scheduling decision; choosing a process that cannot make that step changes nothing. */
  function Step(P: Program, b: Build, s: State, e: Event): State {
    if Enabled(P, s, e) then Apply(P, b, s, e) else s
  }

  type Schedule = seq<Event>

  function Run(P: Program, b: Build, s: State, schedule: Schedule): State {
    if schedule == [] then s
    else Step(P, b, Run(P, b, s, schedule[..|schedule| - 1]), schedule[|schedule| - 1])
  }

  /** The wrapped main, about to begin its first segment. */
  function Initial(c: Context, h: Heap): State {
    State(h, map[], Free, 0,
          [Process(0, 0, [], c, Start(c), Begun(map[]), Beginning, 0, 0, 0)], {}, [])
  }
}
