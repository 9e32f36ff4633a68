/** With NO_ORDER defined, a fork-join program never gets stuck. */
module Deadlock {
  import opened Memory
  import opened Segments
  import opened Tracking
  import opened Protocol
  import opened Invariant

  /** Waits point from a process to its own children, which are younger. */
  predicate WaitsPointDown(s: State) {
    forall i :: 0 <= i < |s.procs| ==>
      && s.procs[i].parent <= i && (i > 0 ==> s.procs[i].parent < i)
      && (s.procs[i].predecessor == 0 ||
          (i < s.procs[i].predecessor < |s.procs| && s.procs[s.procs[i].predecessor].parent == i))
  }

  /** A process that is about to join names one of its own children. */
  predicate JoinsOwnChildren(P: Program, s: State) {
    forall i :: 0 <= i < |s.procs| && s.procs[i].phase.Synced? && Next(P, s.procs[i]).Join? ==>
      var handle := Next(P, s.procs[i]).handle;
      handle < |s.procs[i].handles| && s.procs[i].handles[handle] < |s.procs| &&
      s.procs[s.procs[i].handles[handle]].parent == i
  }

  lemma {:induction false} WaitsStayDown(P: Program, s: State, e: Event)
    requires WaitsPointDown(s)
    ensures WaitsPointDown(Step(P, NoOrder, s, e))
  {
    if Enabled(P, s, e) {
      var s' := Step(P, NoOrder, s, e);
      OthersUntouched(P, NoOrder, s, e);
      ParentsKept(P, NoOrder, s, e);
      forall i | 0 <= i < |s.procs| ensures s'.procs[i].parent == s.procs[i].parent {
        assert i != e.pid ==> s'.procs[i] == s.procs[i];
      }
    }
  }

  lemma ParentsKept(P: Program, b: Build, s: State, e: Event)
    requires Enabled(P, s, e)
    ensures Apply(P, b, s, e).procs[e.pid].parent == s.procs[e.pid].parent
    ensures e.action.Fork? ==>
              var s' := Apply(P, b, s, e);
              s'.procs[e.pid].predecessor == |s.procs| && s'.procs[|s.procs|].parent == e.pid
              && s'.procs[|s.procs|].predecessor == (if b.Ordered? then s.procs[e.pid].predecessor else 0)
  {
  }

  lemma {:induction false} RunWaitsDown(P: Program, c: Context, h: Heap, schedule: Schedule)
    ensures WaitsPointDown(Run(P, NoOrder, Initial(c, h), schedule))
  {
    if schedule != [] {
      RunWaitsDown(P, c, h, schedule[..|schedule| - 1]);
      WaitsStayDown(P, Run(P, NoOrder, Initial(c, h), schedule[..|schedule| - 1]), schedule[|schedule| - 1]);
    }
  }

  /** The youngest live process. */
  function Youngest(s: State, n: nat): (i: nat)
    requires n <= |s.procs| && exists j :: 0 <= j < n && !s.procs[j].phase.Exited?
    ensures i < n && !s.procs[i].phase.Exited?
    ensures forall j :: i < j < n ==> s.procs[j].phase.Exited?
  {
    if s.procs[n - 1].phase.Exited? then Youngest(s, n - 1) else n - 1
  }

  lemma HolderCanStep(P: Program, s: State) returns (e: Event)
    requires Inv(P, s) && s.mutex.Held?
    ensures Enabled(P, s, e) && e.pid == s.mutex.holder
    ensures Committing(s) ==> e.action.CopyCell? || e.action.Bump? || e.action.Unlock?
  {
    var i := s.mutex.holder;
    var p := s.procs[i];
    if p.phase.Validating? {
      e := Event(i, Validate);
    } else if p.phase.rest == {} {
      e := Event(i, Unlock);
    } else {
      var g :| g in p.phase.rest;
      var copy := ViewPage(s.heap, p.attempt.copies, g);
      if copy == s.heap[g] {
        e := Event(i, Bump(g));
      } else {
        var o: Offset :| copy[o] != s.heap[g][o];
        e := Event(i, CopyCell(g, o));
      }
    }
  }

  /** The wait process `i` is in, if any, is over. */
  predicate NotWaiting(P: Program, s: State, i: nat)
    requires i < |s.procs|
  {
    var p := s.procs[i];
    && (p.phase.AwaitingPredecessor? ==> WaitOver(s, i, p.predecessor))
    && (p.phase.Synced? && Next(P, p).Join? ==>
          Next(P, p).handle < |p.handles| && WaitOver(s, i, p.handles[Next(P, p).handle]))
  }

  /** While the mutex is free, waiting for a process is all that can hold a live process up. */
  lemma {:induction false} CanStep(P: Program, s: State, i: nat) returns (e: Event)
    requires Inv(P, s) && s.mutex.Free? && i < |s.procs| && !s.procs[i].phase.Exited? && NotWaiting(P, s, i)
    ensures e.pid == i && Enabled(P, s, e)
  {
    var p := s.procs[i];
    var op := Next(P, p);
    match p.phase {
      case Beginning => e := Event(i, Snapshot);
      case Running =>
        if IsAccess(op) {
          e := Event(i, if Permits(Granted(p.tracker, op.a.page), op) then Touch else Fault);
        } else {
          e := Event(i, if p.tracker.readSet == map[] && p.tracker.writeSet == map[] then CommitEmpty else EndSegment);
        }
      case AwaitingPredecessor => e := Event(i, PredecessorGone);
      case AwaitingMutex => e := Event(i, Lock);
      case Aborting => e := Event(i, Abort);
      case Synced =>
        assert ProcessOk(P, CommittedHeap(s), CommittedVersions(s), s.versions, p);
        e := Event(i, if op.Create? then Fork else if op.Join? then JoinDone else Leave);
      case _ =>
        assert false;
    }
  }

  lemma YoungestCanStep(P: Program, s: State, i: nat) returns (e: Event)
    requires Inv(P, s) && WaitsPointDown(s) && JoinsOwnChildren(P, s) && s.mutex.Free?
    requires i < |s.procs| && !s.procs[i].phase.Exited?
    requires forall j :: i < j < |s.procs| ==> s.procs[j].phase.Exited?
    ensures Enabled(P, s, e)
  {
    e := CanStep(P, s, i);
  }

  /** In every reachable state with a live process some process can step. */
  lemma NoDeadlock(P: Program, c: Context, h: Heap, schedule: Schedule)
    requires var s := Run(P, NoOrder, Initial(c, h), schedule);
             JoinsOwnChildren(P, s) && exists j :: 0 <= j < |s.procs| && !s.procs[j].phase.Exited?
    ensures exists e :: Enabled(P, Run(P, NoOrder, Initial(c, h), schedule), e)
  {
    var s := Run(P, NoOrder, Initial(c, h), schedule);
    InitialOk(P, c, h);
    RunKeeps(P, NoOrder, Initial(c, h), schedule);
    RunWaitsDown(P, c, h, schedule);
    if s.mutex.Held? {
      var e := HolderCanStep(P, s);
    } else {
      var e := YoungestCanStep(P, s, Youngest(s, |s.procs|));
    }
  }
}
