/** The library's methods make the moves of the protocol: run on objects that show a protocol state,
    each leaves them showing the state its steps lead to. */
module Conformance {
  import opened Memory
  import opened Segments
  import opened Tracking
  import opened Protocol
  import opened Invariant
  import opened Realization
  import opened Runtime
  import opened Waiting
  import Termination

  /** The private objects show process `i` of `s`. */
  ghost predicate PrivateShown(t: Transaction, s: State, i: nat)
    reads t
  {
    i < |s.procs| && t.self == i && t.predecessor == s.procs[i].predecessor
    && t.Tracked() == s.procs[i].tracker && t.copies == s.procs[i].attempt.copies
  }

  /** The objects of process `i` show its part of `s`. */
  ghost predicate Shown(t: Transaction, s: State, i: nat)
    reads t, t.shared, t.shared.heap
  {
    t.Valid() && PrivateShown(t, s, i) && t.shared.mutex == s.mutex
    && t.shared.View() == Guarded(s.heap, s.versions, s.rollbacks)
  }

  /** What the process found when it locked the mutex is what `s` holds, and the mutex was free. */
  ghost predicate FoundIn(t: Transaction, s: State)
    reads t, t.shared
  {
    s.mutex.Free? && t.shared.found == Guarded(s.heap, s.versions, s.rollbacks)
  }

  /** No other process has changed, and nobody has been reaped. */
  predicate OwnMove(s: State, s': State, i: nat) {
    i < |s.procs| == |s'.procs| && s'.reaped == s.reaped &&
    forall j :: 0 <= j < |s.procs| && j != i ==> s'.procs[j] == s.procs[j]
  }

  /** AtomicBegin makes the snapshot step in whatever state the mutex is granted. */
  method Begin(t: Transaction, ghost P: Program, ghost b: Build)
    requires t.Valid() && t.shared.mutex != Held(t.self)
    modifies t, t.permissions, t.shared, t.shared.heap
    ensures t.Armed() && t.predecessor == old(t.predecessor) && t.copies == old(t.copies)
    ensures forall s: State ::
              FoundIn(t, s) && Enabled(P, s, Event(t.self, Snapshot)) &&
              s.procs[t.self].predecessor == t.predecessor && s.procs[t.self].attempt.copies == t.copies ==>
                Shown(t, Apply(P, b, s, Event(t.self, Snapshot)), t.self)
  {
    t.AtomicBegin();
  }

  method HandleFault(t: Transaction, page: Page, ghost P: Program, ghost b: Build, ghost s: State, ghost i: nat)
    requires t.Armed() && Shown(t, s, i) && Enabled(P, s, Event(i, Fault)) && page == Next(P, s.procs[i]).a.page
    modifies t, t.permissions
    ensures t.Armed() && Shown(t, Apply(P, b, s, Event(i, Fault)), i)
  {
    t.SegfaultHandler(page);
  }

  /** The tracker once all faults of an access have been handled. */
  function Admitted(k: Tracker, op: Op): Tracker
    requires IsAccess(op)
  {
    var k1 := if Granted(k, op.a.page) == NoAccess then Faulted(k, op.a.page) else k;
    if op.Store? && Granted(k1, op.a.page) == ReadOnly then Faulted(k1, op.a.page) else k1
  }

  lemma AdmittedAfterFault(P: Program, p: Process)
    requires p.phase.Running? && TrackedExactly(P, p) && IsAccess(Next(P, p))
    requires !Permits(Granted(p.tracker, Next(P, p).a.page), Next(P, p))
    ensures Admitted(Faulted(p.tracker, Next(P, p).a.page), Next(P, p)) == Admitted(p.tracker, Next(P, p))
  {
  }

  lemma TouchStep(P: Program, b: Build, s: State, i: nat)
    requires Enabled(P, s, Event(i, Touch))
    ensures var s' := Apply(P, b, s, Event(i, Touch));
            s' == Put(s, i, s'.procs[i]) && s'.procs[i].attempt == Access(P, s.heap, s.procs[i].attempt)
            && s'.procs[i].tracker == Admitted(s.procs[i].tracker, Next(P, s.procs[i]))
            && s'.procs[i].predecessor == s.procs[i].predecessor
  {
  }

  lemma FaultStep(P: Program, b: Build, s: State, i: nat)
    requires Enabled(P, s, Event(i, Fault)) && TrackedExactly(P, s.procs[i])
    ensures var s' := Apply(P, b, s, Event(i, Fault));
            var op := Next(P, s.procs[i]);
            s' == Put(s, i, s.procs[i].(tracker := Faulted(s.procs[i].tracker, op.a.page)))
            && Admitted(s'.procs[i].tracker, op) == Admitted(s.procs[i].tracker, op)
            && Termination.FaultsAhead(s'.procs[i].tracker, op) < Termination.FaultsAhead(s.procs[i].tracker, op)
  {
    AdmittedAfterFault(P, s.procs[i]);
    FaultCounts(s.procs[i].tracker, Next(P, s.procs[i]));
  }

  /** The steps of one load or store: its faults, then the access itself. */
  lemma {:induction false} AccessSteps(P: Program, b: Build, s: State, i: nat) returns (s': State)
    requires Inv(P, s) && i < |s.procs| && s.procs[i].phase.Running? && IsAccess(Next(P, s.procs[i]))
    ensures ReachesBy(P, b, i, s, s') && Inv(P, s')
    ensures |s'.procs| == |s.procs| && s' == Put(s, i, s'.procs[i])
    ensures s'.procs[i].attempt == Access(P, s.heap, s.procs[i].attempt)
    ensures s'.procs[i].tracker == Admitted(s.procs[i].tracker, Next(P, s.procs[i]))
    ensures s'.procs[i].predecessor == s.procs[i].predecessor
    decreases Termination.FaultsAhead(s.procs[i].tracker, Next(P, s.procs[i]))
  {
    ReachesBySelf(P, b, i, s);
    if Enabled(P, s, Event(i, Touch)) {
      ReachesByStep(P, b, i, s, s, Event(i, Touch));
      TouchStep(P, b, s, i);
      s' := Apply(P, b, s, Event(i, Touch));
    } else {
      assert TrackedExactly(P, s.procs[i]) by {
        assert ProcessOk(P, CommittedHeap(s), CommittedVersions(s), s.versions, s.procs[i]);
      }
      ReachesByStep(P, b, i, s, s, Event(i, Fault));
      FaultStep(P, b, s, i);
      var t := Apply(P, b, s, Event(i, Fault));
      s' := AccessSteps(P, b, t, i);
      ReachesByOn(P, b, i, s, t, s');
    }
  }

  lemma FaultCounts(k: Tracker, op: Op)
    requires IsAccess(op) && !Permits(Granted(k, op.a.page), op) && k.writeSet.Keys <= k.readSet.Keys
    ensures Termination.FaultsAhead(Faulted(k, op.a.page), op) < Termination.FaultsAhead(k, op)
  {
  }

  /** The private objects after an access; the shared ones have not moved. */
  lemma AccessShown(P: Program, t: Transaction, s: State, s': State, i: nat)
    requires t.Valid() && i < |s.procs| == |s'.procs| && s' == Put(s, i, s'.procs[i]) && PrivateShown(t, s', i)
    requires t.shared.mutex == s.mutex && t.shared.View() == Guarded(s.heap, s.versions, s.rollbacks)
    ensures Shown(t, s', i)
  {
  }

  /** A load, with the fault it may take first. */
  method PerformLoad(t: Transaction, a: Address, ghost P: Program, ghost b: Build, ghost s: State, ghost i: nat)
      returns (v: int, ghost s': State)
    requires t.Armed() && Shown(t, s, i) && Inv(P, s)
    requires i < |s.procs| && s.procs[i].phase.Running? && Next(P, s.procs[i]) == Op.Load(a)
    modifies t, t.permissions
    ensures t.Armed() && ReachesBy(P, b, i, s, s') && Inv(P, s') && Shown(t, s', i)
    ensures s' == Put(s, i, s'.procs[i]) && s'.procs[i].attempt == Access(P, s.heap, s.procs[i].attempt)
    ensures s'.procs[i].attempt.ctx == P.after(s.procs[i].attempt.ctx, v)
  {
    var faults;
    v, faults := t.Load(a);
    s' := AccessSteps(P, b, s, i);
    AccessShown(P, t, s, s', i);
  }

  /** A store, with the faults it may take first. */
  method PerformStore(t: Transaction, a: Address, v: int, ghost P: Program, ghost b: Build, ghost s: State, ghost i: nat)
      returns (ghost s': State)
    requires t.Armed() && Shown(t, s, i) && Inv(P, s)
    requires i < |s.procs| && s.procs[i].phase.Running? && Next(P, s.procs[i]) == Op.Store(a, v)
    modifies t, t.permissions
    ensures t.Armed() && ReachesBy(P, b, i, s, s') && Inv(P, s') && Shown(t, s', i)
    ensures s' == Put(s, i, s'.procs[i]) && s'.procs[i].attempt == Access(P, s.heap, s.procs[i].attempt)
  {
    assert TrackedExactly(P, s.procs[i]) by {
      assert ProcessOk(P, CommittedHeap(s), CommittedVersions(s), s.versions, s.procs[i]);
    }
    var faults := t.Store(a, v);
    s' := AccessSteps(P, b, s, i);
    AccessShown(P, t, s, s', i);
  }

  lemma FailAlone(P: Program, b: Build, s: State, i: nat) returns (s': State)
    requires Inv(P, s) && i < |s.procs| && s.procs[i].phase.AwaitingMutex? && s.mutex.Free?
    requires !Consistent(s.procs[i].tracker.readSet, s.versions)
    ensures ReachesBy(P, b, i, s, s') && Inv(P, s')
    ensures i < |s'.procs| && s'.procs[i].phase.Aborting? && s'.mutex.Free? && s'.rollbacks == s.rollbacks + 1
    ensures s'.heap == s.heap && s'.versions == s.versions && s'.log == s.log && OwnMove(s, s', i)
    ensures s'.procs[i].tracker == s.procs[i].tracker && s'.procs[i].attempt == s.procs[i].attempt
    ensures s'.procs[i].predecessor == s.procs[i].predecessor
  {
    ReachesBySelf(P, b, i, s);
    ReachesByStep(P, b, i, s, s, Event(i, Lock));
    s' := Apply(P, b, s, Event(i, Lock));
    ReachesByStep(P, b, i, s, s', Event(i, Validate));
    s' := Apply(P, b, s', Event(i, Validate));
  }

  lemma SucceedAlone(P: Program, b: Build, s: State, i: nat) returns (s': State)
    requires Inv(P, s) && i < |s.procs| && s.procs[i].phase.AwaitingMutex? && s.mutex.Free?
    requires Current(s.procs[i].tracker.readSet, s.versions)
    ensures ReachesBy(P, b, i, s, s') && Inv(P, s')
    ensures i < |s'.procs| && s'.procs[i].phase.Synced? && s'.mutex.Free? && s'.rollbacks == s.rollbacks
    ensures s'.heap == Overlay(s.heap, s.procs[i].attempt.copies)
    ensures s'.versions == s.versions + s.procs[i].tracker.writeSet && OwnMove(s, s', i)
    ensures s'.log == s.log + [Protocol.Commit(i, s.procs[i].tracker.writeSet.Keys)]
    ensures s'.procs[i].tracker == s.procs[i].tracker && s'.procs[i].attempt.copies == map[]
    ensures s'.procs[i].predecessor == s.procs[i].predecessor
    ensures s.procs[i].attempt.copies.Keys == s.procs[i].tracker.writeSet.Keys
  {
    assert ProcessOk(P, CommittedHeap(s), CommittedVersions(s), s.versions, s.procs[i]);
    ReachesBySelf(P, b, i, s);
    var t := ValidateAlone(P, b, s, s, i);
    s' := InstallAlone(P, b, s, t, i);
  }

  lemma ConsistentIsCurrent(P: Program, s: State, i: nat)
    requires Inv(P, s) && i < |s.procs| && s.procs[i].phase.AwaitingMutex?
    ensures Consistent(s.procs[i].tracker.readSet, s.versions) <==> Current(s.procs[i].tracker.readSet, s.versions)
  {
    var k := s.procs[i].tracker;
    assert ProcessOk(P, CommittedHeap(s), CommittedVersions(s), s.versions, s.procs[i]);
    forall g | g in k.readSet && g !in s.versions ensures k.readSet[g] == 0 {
      assert Version(k.snapshot, g) <= Version(s.versions, g);
    }
  }

  /** `s'` is `s` after the steps of process `i` from lock to unlock, or to a failed validation. */
  ghost predicate Finished(P: Program, b: Build, s: State, s': State, i: nat, committed: bool) {
    && ReachesBy(P, b, i, s, s') && Inv(P, s') && OwnMove(s, s', i)
    && (if committed then s'.procs[i].phase.Synced? else s'.procs[i].phase.Aborting?)
    && s'.log == if committed then s.log + [Protocol.Commit(i, s.procs[i].tracker.writeSet.Keys)] else s.log
  }

  /** Process `i` of `s` is about to lock the mutex, with this tracker and these copies. */
  ghost predicate ReadyToLock(P: Program, s: State, i: nat, predecessor: nat, k: Tracker, copies: Copies) {
    Inv(P, s) && i < |s.procs| && s.procs[i].phase.AwaitingMutex? && s.procs[i].predecessor == predecessor
    && s.procs[i].tracker == k && s.procs[i].attempt.copies == copies
  }

  lemma LockedPart(P: Program, b: Build, t: Transaction, s: State, i: nat, copies: Copies, committed: bool) returns (s': State)
    requires t.Valid() && FoundIn(t, s) && ReadyToLock(P, s, i, t.predecessor, t.Tracked(), copies) && t.self == i
    requires t.shared.mutex.Free? && (committed <==> Consistent(t.readSet, t.shared.found.versions))
    requires committed ==> t.copies == map[] && t.shared.View() == Committed(t.shared.found, copies, t.writeSet)
    requires !committed ==> t.copies == copies && t.shared.View() == t.shared.found.(rollbacks := t.shared.found.rollbacks + 1)
    ensures Finished(P, b, s, s', i, committed) && Shown(t, s', i)
    ensures committed <==> Current(s.procs[i].tracker.readSet, s.versions)
  {
    ConsistentIsCurrent(P, s, i);
    if committed {
      s' := SucceedAlone(P, b, s, i);
      ReplacedIsOverlay(s.heap, copies);
    } else {
      s' := FailAlone(P, b, s, i);
    }
  }

  /** The locked part of AtomicCommit makes the steps from lock to unlock, or from lock to a failed
      validation, in whatever state the mutex is granted, and commits exactly when the read set is
      current in that state. */
  method Commit(t: Transaction, kernel: Kernel, ghost P: Program, ghost b: Build) returns (outcome: Outcome)
    requires t.Valid() && !t.Untouched() && t.shared.mutex != Held(t.self) && t.predecessor < |kernel.parents|
    modifies t, t.permissions, t.shared, t.shared.heap, kernel
    ensures outcome.StillWaiting? <==> !old(kernel.Over(t.self, t.predecessor))
    ensures !outcome.StillWaiting? ==>
              forall s: State ::
                FoundIn(t, s) && ReadyToLock(P, s, t.self, old(t.predecessor), old(t.Tracked()), old(t.copies)) ==>
                  (outcome.Done? <==> Current(s.procs[t.self].tracker.readSet, s.versions)) &&
                  exists s' :: Finished(P, b, s, s', t.self, outcome.Done?) && Shown(t, s', t.self)
  {
    ghost var k, copies := t.Tracked(), t.copies;
    outcome := t.AtomicCommit(kernel);
    if !outcome.StillWaiting? {
      forall s: State | FoundIn(t, s) && ReadyToLock(P, s, t.self, t.predecessor, k, copies)
        ensures outcome.Done? <==> Current(s.procs[t.self].tracker.readSet, s.versions)
        ensures exists s' :: Finished(P, b, s, s', t.self, outcome.Done?) && Shown(t, s', t.self)
      {
        var s' := LockedPart(P, b, t, s, t.self, copies, outcome.Done?);
      }
    }
  }

  /** A segment that has touched nothing ends without waiting or locking. */
  method CommitUntouched(t: Transaction, kernel: Kernel, ghost P: Program, ghost b: Build, ghost s: State, ghost i: nat)
      returns (outcome: Outcome)
    requires Shown(t, s, i) && Inv(P, s) && Enabled(P, s, Event(i, CommitEmpty)) && t.predecessor < |kernel.parents|
    modifies t, t.permissions, t.shared, t.shared.heap, kernel
    ensures outcome.Done? && unchanged(kernel) && Shown(t, Apply(P, b, s, Event(i, CommitEmpty)), i)
  {
    assert s.mutex != Held(i);
    assert t.copies.Keys == {} by {
      assert ProcessOk(P, CommittedHeap(s), CommittedVersions(s), s.versions, s.procs[i]);
    }
    outcome := t.AtomicCommit(kernel);
  }

  method Restart(t: Transaction, ghost P: Program, ghost b: Build, ghost s: State, ghost i: nat)
    requires Shown(t, s, i) && Enabled(P, s, Event(i, Abort))
    modifies t
    ensures Shown(t, Apply(P, b, s, Event(i, Abort)), i)
  {
    t.AtomicAbort();
  }

  /** The fork in Create, seen by the parent and by the child. */
  method Create(t: Transaction, b: Build, child: nat, ghost P: Program, ghost s: State, ghost i: nat) returns (c: Transaction)
    requires Shown(t, s, i) && Inv(P, s) && Enabled(P, s, Event(i, Fork)) && child == |s.procs|
    modifies t
    ensures Shown(t, Apply(P, b, s, Event(i, Fork)), i)
    ensures c.shared == t.shared && Shown(c, Apply(P, b, s, Event(i, Fork)), child)
  {
    assert t.copies == map[] by {
      assert ProcessOk(P, CommittedHeap(s), CommittedVersions(s), s.versions, s.procs[i]);
    }
    c := new Transaction.Forked(t, child, b);
    t.AfterFork(child);
  }
}
