/** What every step of every schedule keeps. */
module Invariant {
  import opened Memory
  import opened Segments
  import opened Tracking
  import opened Protocol

  // ---- the committed state: a commit takes effect when its validation succeeds ----

  predicate Committing(s: State) {
    s.mutex.Held? && s.mutex.holder < |s.procs| && s.procs[s.mutex.holder].phase.Installing?
  }

  /** The heap once the commit in progress, if any, has been copied. */
  function CommittedHeap(s: State): Heap {
    if Committing(s) then Overlay(s.heap, s.procs[s.mutex.holder].attempt.copies) else s.heap
  }

  /** The version table once the commit in progress, if any, has been recorded. */
  function CommittedVersions(s: State): Versions {
    if Committing(s) then s.versions + s.procs[s.mutex.holder].tracker.writeSet else s.versions
  }

  // ---- the invariant ----

  predicate NoNewer(t: Versions, u: Versions) {
    forall g: Page :: Version(t, g) <= Version(u, g)
  }

  /** Between its snapshot and its validation. */
  predicate Attempting(f: Phase) {
    f.Running? || f.AwaitingPredecessor? || f.AwaitingMutex? || f.Validating?
  }

  predicate AtSegmentEnd(f: Phase) {
    f.AwaitingPredecessor? || f.AwaitingMutex? || f.Validating? || f.Installing? || f.Synced?
  }

  /** The maps record exactly what the attempt touched, up to the access now faulting. */
  predicate TrackedExactly(P: Program, p: Process) {
    var k, t, op := p.tracker, p.attempt, Next(P, p);
    && t.copies.Keys <= k.writeSet.Keys <= k.readSet.Keys
    && t.copies.Keys <= t.touched <= k.readSet.Keys
    && (forall g :: g in k.readSet ==> k.readSet[g] == Version(k.snapshot, g))
    && (forall g :: g in k.writeSet ==> k.writeSet[g] == Version(k.snapshot, g) + 1)
    && (forall g :: g in k.readSet && g !in t.touched ==> p.phase.Running? && IsAccess(op) && op.a.page == g)
    && (forall g :: g in k.writeSet && g !in t.copies ==> p.phase.Running? && op.Store? && op.a.page == g)
    && (p.accesses > 0 ==> t.touched != {})
  }

  /** An attempt whose recorded versions are all current has run as if nobody interfered. */
  predicate UndisturbedIfCurrent(P: Program, h: Heap, t: Versions, p: Process) {
    Current(p.tracker.readSet, t) ==> p.attempt == Undisturbed(P, p.saved, h, p.accesses)
  }

  predicate ProcessOk(P: Program, h: Heap, t: Versions, now: Versions, p: Process) {
    && (p.phase.Beginning? ==> p.attempt == Start(p.saved))
    && (Attempting(p.phase) || p.phase.Installing? ==> TrackedExactly(P, p) && NoNewer(p.tracker.snapshot, now))
    && (AtSegmentEnd(p.phase) ==> !IsAccess(Next(P, p)))
    && (p.phase.Synced? ==> p.attempt.copies == map[])
    && (Attempting(p.phase) ==> UndisturbedIfCurrent(P, h, t, p))
  }

  predicate HoldsMutex(f: Phase) {
    f.Validating? || f.Installing?
  }

  predicate MutexOk(s: State) {
    && (s.mutex.Held? ==> s.mutex.holder < |s.procs| && HoldsMutex(s.procs[s.mutex.holder].phase))
    && (forall i :: 0 <= i < |s.procs| && HoldsMutex(s.procs[i].phase) ==> s.mutex == Held(i))
  }

  /** A commit in progress: pages in `rest` still carry the version that was validated, the others
      carry the new version and the new contents. */
  predicate InstallOk(s: State) {
    Committing(s) ==>
      var p := s.procs[s.mutex.holder];
      var k := p.tracker;
      && p.phase.rest <= k.writeSet.Keys == p.attempt.copies.Keys
      && (forall g :: g in p.phase.rest ==> Version(s.versions, g) == Version(k.snapshot, g))
      && (forall g :: g in k.writeSet && g !in p.phase.rest ==>
            Version(s.versions, g) == k.writeSet[g] && s.heap[g] == p.attempt.copies[g])
  }

  predicate Inv(P: Program, s: State) {
    && MutexOk(s)
    && (forall i :: 0 <= i < |s.procs| ==> ProcessOk(P, CommittedHeap(s), CommittedVersions(s), s.versions, s.procs[i]))
    && InstallOk(s)
  }


  // ---- frames: what a step of one process means for the others ----

  lemma OlderIsCurrent(k: Tracker, t: Versions, u: Versions, now: Versions)
    requires forall g :: g in k.readSet ==> k.readSet[g] == Version(k.snapshot, g)
    requires NoNewer(k.snapshot, now) && NoNewer(now, t) && NoNewer(t, u)
    requires Current(k.readSet, u)
    ensures Current(k.readSet, t)
  {
    forall g | g in k.readSet ensures Version(t, g) == k.readSet[g] {
      assert Version(k.snapshot, g) <= Version(now, g) <= Version(t, g) <= Version(u, g);
    }
  }

  /** A step that leaves the committed state alone and only lets versions grow. */
  lemma QuietFrame(P: Program, h: Heap, t: Versions, now: Versions, now': Versions, p: Process)
    requires ProcessOk(P, h, t, now, p) && NoNewer(now, now')
    ensures ProcessOk(P, h, t, now', p)
  {
    if Attempting(p.phase) || p.phase.Installing? {
      forall g: Page ensures Version(p.tracker.snapshot, g) <= Version(now', g) {
        assert Version(p.tracker.snapshot, g) <= Version(now, g) <= Version(now', g);
      }
    }
  }

  /** Another process commits `copies`, giving every page of `wrote` the next version. */
  lemma CommitFrame(P: Program, h: Heap, t: Versions, p: Process, copies: Copies, wrote: Versions)
    requires ProcessOk(P, h, t, t, p)
    requires copies.Keys == wrote.Keys
    requires forall g :: g in wrote ==> wrote[g] == Version(t, g) + 1
    ensures !p.phase.Installing? ==> ProcessOk(P, Overlay(h, copies), t + wrote, t, p)
  {
    var k := p.tracker;
    if Attempting(p.phase) && Current(k.readSet, t + wrote) {
      OlderIsCurrent(k, t, t + wrote, t);
      forall g | g in p.attempt.touched ensures h[g] == Overlay(h, copies)[g] {
        assert Version(t, g) == k.readSet[g] == Version(t + wrote, g);
      }
      OnlyTouchedPagesMatter(P, p.saved, h, Overlay(h, copies), p.accesses);
    }
  }

  // ---- each action keeps the invariant ----

  /** A step that changes only process `i`, which neither held nor takes the mutex. */
  lemma OwnStep(P: Program, s: State, s': State, i: nat)
    requires Inv(P, s) && i < |s.procs| && |s'.procs| == |s.procs|
    requires forall j :: 0 <= j < |s.procs| && j != i ==> s'.procs[j] == s.procs[j]
    requires s'.heap == s.heap && s'.versions == s.versions && s'.mutex == s.mutex
    requires !HoldsMutex(s.procs[i].phase) && !HoldsMutex(s'.procs[i].phase)
    requires ProcessOk(P, CommittedHeap(s), CommittedVersions(s), s.versions, s'.procs[i])
    ensures Inv(P, s')
    ensures CommittedHeap(s') == CommittedHeap(s) && CommittedVersions(s') == CommittedVersions(s)
  {
    assert s.mutex.Held? ==> s.mutex.holder != i;
  }

  /** Under current versions a running attempt sees the committed page wherever it may access. */
  lemma SeesCommitted(P: Program, s: State, i: nat, g: Page)
    requires Inv(P, s) && i < |s.procs| && s.procs[i].phase.Running?
    requires Current(s.procs[i].tracker.readSet, CommittedVersions(s)) && g in s.procs[i].tracker.readSet
    ensures s.heap[g] == CommittedHeap(s)[g]
  {
    if Committing(s) {
      var p, q := s.procs[i], s.procs[s.mutex.holder];
      assert ProcessOk(P, CommittedHeap(s), CommittedVersions(s), s.versions, p);
      assert ProcessOk(P, CommittedHeap(s), CommittedVersions(s), s.versions, q);
      assert Version(p.tracker.snapshot, g) <= Version(s.versions, g);
    }
  }

  lemma {:induction false} TouchKeeps(P: Program, b: Build, s: State, i: nat)
    requires Inv(P, s) && Enabled(P, s, Event(i, Touch))
    ensures Inv(P, Apply(P, b, s, Event(i, Touch)))
  {
    var p := s.procs[i];
    var s' := Apply(P, b, s, Event(i, Touch));
    var p' := s'.procs[i];
    var g := Next(P, p).a.page;
    assert ProcessOk(P, CommittedHeap(s), CommittedVersions(s), s.versions, p);
    assert g in p.tracker.readSet;
    assert p'.attempt.touched == p.attempt.touched + {g};
    if Current(p.tracker.readSet, CommittedVersions(s)) {
      SeesCommitted(P, s, i, g);
    }
    OwnStep(P, s, s', i);
  }

  lemma FaultTracks(P: Program, p: Process, g: Page)
    requires p.phase.Running? && TrackedExactly(P, p)
    requires IsAccess(Next(P, p)) && Next(P, p).a.page == g
    requires !Permits(Granted(p.tracker, g), Next(P, p))
    ensures TrackedExactly(P, p.(tracker := Faulted(p.tracker, g)))
  {
    var k, k' := p.tracker, Faulted(p.tracker, g);
    if g in k.readSet {
      assert k'.readSet == k.readSet && k'.writeSet.Keys == k.writeSet.Keys + {g};
    } else {
      assert k'.writeSet == k.writeSet && k'.readSet.Keys == k.readSet.Keys + {g};
    }
  }

  lemma {:induction false} FaultKeeps(P: Program, b: Build, s: State, i: nat)
    requires Inv(P, s) && Enabled(P, s, Event(i, Fault))
    ensures Inv(P, Apply(P, b, s, Event(i, Fault)))
  {
    var p := s.procs[i];
    var s' := Apply(P, b, s, Event(i, Fault));
    var k, k' := p.tracker, s'.procs[i].tracker;
    assert ProcessOk(P, CommittedHeap(s), CommittedVersions(s), s.versions, p);
    FaultTracks(P, p, Next(P, p).a.page);
    assert k'.snapshot == k.snapshot;
    assert forall g :: g in k.readSet ==> g in k'.readSet && k'.readSet[g] == k.readSet[g];
    OwnStep(P, s, s', i);
  }

  /** A process that goes on to the next phase of its segment's end. */
  lemma EndOk(P: Program, h: Heap, t: Versions, now: Versions, p: Process, f: Phase)
    requires ProcessOk(P, h, t, now, p)
    requires (p.phase.Running? && !IsAccess(Next(P, p)) && f.AwaitingPredecessor?)
          || (p.phase.Running? && !IsAccess(Next(P, p)) && p.tracker.writeSet == map[] && f.Synced?)
          || (p.phase.AwaitingPredecessor? && f.AwaitingMutex?)
          || (p.phase.Synced? && f.Exited?)
    ensures ProcessOk(P, h, t, now, p.(phase := f))
  {
    if p.phase.Running? && f.Synced? {
      assert p.attempt.copies.Keys == {};
    }
  }

  lemma EndPhase(P: Program, b: Build, s: State, e: Event)
    requires Enabled(P, s, e)
    requires e.action.CommitEmpty? || e.action.EndSegment? || e.action.PredecessorGone? || e.action.Leave?
    ensures var s' := Apply(P, b, s, e);
            s'.procs == s.procs[e.pid := s.procs[e.pid].(phase := s'.procs[e.pid].phase)]
            && s'.heap == s.heap && s'.versions == s.versions && s'.mutex == s.mutex
    ensures var f := Apply(P, b, s, e).procs[e.pid].phase;
            match e.action
            case CommitEmpty => f.Synced?
            case EndSegment => f.AwaitingPredecessor?
            case PredecessorGone => f.AwaitingMutex?
            case _ => f.Exited?
  {
  }

  /** The ends of a segment: the early return and the waits of AtomicCommit, and exit. */
  lemma {:induction false} EndKeeps(P: Program, b: Build, s: State, e: Event)
    requires Inv(P, s) && Enabled(P, s, e)
    requires e.action.CommitEmpty? || e.action.EndSegment? || e.action.PredecessorGone? || e.action.Leave?
    ensures Inv(P, Apply(P, b, s, e))
  {
    var s' := Apply(P, b, s, e);
    EndPhase(P, b, s, e);
    EndOk(P, CommittedHeap(s), CommittedVersions(s), s.versions, s.procs[e.pid], s'.procs[e.pid].phase);
    OwnStep(P, s, s', e.pid);
  }

  /** The beginnings of a segment: AtomicBegin, AtomicAbort, and the return from a join. */
  lemma StartKeeps(P: Program, b: Build, s: State, e: Event)
    requires Inv(P, s) && Enabled(P, s, e)
    requires e.action.Snapshot? || e.action.Abort? || e.action.JoinDone?
    ensures Inv(P, Apply(P, b, s, e))
  {
    assert ProcessOk(P, CommittedHeap(s), CommittedVersions(s), s.versions, s.procs[e.pid]);
    OwnStep(P, s, Apply(P, b, s, e), e.pid);
  }

  lemma ForkKeeps(P: Program, b: Build, s: State, i: nat)
    requires Inv(P, s) && Enabled(P, s, Event(i, Fork))
    ensures Inv(P, Apply(P, b, s, Event(i, Fork)))
  {
    var s' := Forked(P, b, s, i);
    assert forall j :: 0 <= j < |s.procs| && j != i ==> s'.procs[j] == s.procs[j];
    assert CommittedHeap(s') == CommittedHeap(s) && CommittedVersions(s') == CommittedVersions(s);
  }

  lemma LockKeeps(P: Program, b: Build, s: State, i: nat)
    requires Inv(P, s) && Enabled(P, s, Event(i, Lock))
    ensures Inv(P, Apply(P, b, s, Event(i, Lock)))
  {
    assert ProcessOk(P, CommittedHeap(s), CommittedVersions(s), s.versions, s.procs[i]);
  }

  /** Skipping pages that are absent from the global table loses nothing: the code's test says
      exactly that every recorded version is still current. */
  lemma ValidationIsExact(P: Program, s: State, i: nat)
    requires Inv(P, s) && i < |s.procs| && s.procs[i].phase.Validating?
    ensures Consistent(s.procs[i].tracker.readSet, s.versions) <==> Current(s.procs[i].tracker.readSet, s.versions)
  {
    var k := s.procs[i].tracker;
    assert ProcessOk(P, CommittedHeap(s), CommittedVersions(s), s.versions, s.procs[i]);
    forall g | g in k.readSet && g !in s.versions ensures k.readSet[g] == 0 {
      assert Version(k.snapshot, g) <= Version(s.versions, g);
    }
  }

  lemma SuccessKeeps(P: Program, b: Build, s: State, i: nat)
    requires Inv(P, s) && Enabled(P, s, Event(i, Validate)) && Current(s.procs[i].tracker.readSet, s.versions)
    ensures Inv(P, Apply(P, b, s, Event(i, Validate)))
    ensures var s' := Apply(P, b, s, Event(i, Validate));
            var p := s.procs[i];
            CommittedHeap(s') == Overlay(s.heap, p.attempt.copies) && CommittedVersions(s') == s.versions + p.tracker.writeSet
  {
    var p := s.procs[i];
    var s' := Apply(P, b, s, Event(i, Validate));
    assert s.mutex == Held(i) && !Committing(s);
    assert ProcessOk(P, s.heap, s.versions, s.versions, p);
    ValidationIsExact(P, s, i);
    forall g | g in p.tracker.writeSet ensures p.tracker.writeSet[g] == Version(s.versions, g) + 1 {
      assert p.tracker.readSet[g] == Version(s.versions, g);
    }
    forall j | 0 <= j < |s.procs| && j != i
      ensures ProcessOk(P, Overlay(s.heap, p.attempt.copies), s.versions + p.tracker.writeSet, s.versions, s'.procs[j])
    {
      CommitFrame(P, s.heap, s.versions, s.procs[j], p.attempt.copies, p.tracker.writeSet);
    }
    assert CommittedHeap(s') == Overlay(s.heap, p.attempt.copies);
    assert CommittedVersions(s') == s.versions + p.tracker.writeSet;
  }

  lemma FailureKeeps(P: Program, b: Build, s: State, i: nat)
    requires Inv(P, s) && Enabled(P, s, Event(i, Validate)) && !Current(s.procs[i].tracker.readSet, s.versions)
    ensures Inv(P, Apply(P, b, s, Event(i, Validate)))
    ensures var s' := Apply(P, b, s, Event(i, Validate));
            CommittedHeap(s') == s.heap && CommittedVersions(s') == s.versions
  {
    ValidationIsExact(P, s, i);
    assert s.mutex == Held(i) && !Committing(s);
    assert ProcessOk(P, s.heap, s.versions, s.versions, s.procs[i]);
    assert !Committing(Apply(P, b, s, Event(i, Validate)));
  }

  lemma ValidateKeeps(P: Program, b: Build, s: State, i: nat)
    requires Inv(P, s) && Enabled(P, s, Event(i, Validate))
    ensures Inv(P, Apply(P, b, s, Event(i, Validate)))
    ensures var s' := Apply(P, b, s, Event(i, Validate));
            var p := s.procs[i];
            if Current(p.tracker.readSet, s.versions) then
              CommittedHeap(s') == Overlay(s.heap, p.attempt.copies) && CommittedVersions(s') == s.versions + p.tracker.writeSet
            else
              CommittedHeap(s') == s.heap && CommittedVersions(s') == s.versions
  {
    if Current(s.procs[i].tracker.readSet, s.versions) {
      SuccessKeeps(P, b, s, i);
    } else {
      FailureKeeps(P, b, s, i);
    }
  }

  lemma {:induction false} CopyKeeps(P: Program, b: Build, s: State, e: Event)
    requires Inv(P, s) && Enabled(P, s, e) && e.action.CopyCell?
    ensures Inv(P, Apply(P, b, s, e))
    ensures CommittedHeap(Apply(P, b, s, e)) == CommittedHeap(s)
    ensures CommittedVersions(Apply(P, b, s, e)) == CommittedVersions(s)
  {
    var s' := Apply(P, b, s, e);
    assert s.mutex == Held(e.pid) && Committing(s) && Committing(s');
    assert CommittedHeap(s') == CommittedHeap(s);
  }

  /** Recording the version of a copied page changes neither the committed heap nor the committed
      versions. */
  lemma BumpCommitted(P: Program, b: Build, s: State, e: Event)
    requires MutexOk(s) && Enabled(P, s, e) && e.action.Bump?
    ensures var s' := Apply(P, b, s, e);
            s.mutex == Held(e.pid) && Committing(s) && Committing(s')
            && CommittedHeap(s') == CommittedHeap(s) && CommittedVersions(s') == CommittedVersions(s)
  {
    var s' := Apply(P, b, s, e);
    assert s.mutex == Held(e.pid) && s'.procs[e.pid].attempt == s.procs[e.pid].attempt;
    assert CommittedHeap(s') == CommittedHeap(s);
    assert CommittedVersions(s') == CommittedVersions(s);
  }

  lemma BumpInstalls(P: Program, b: Build, s: State, e: Event)
    requires MutexOk(s) && InstallOk(s) && Enabled(P, s, e) && e.action.Bump?
    ensures InstallOk(Apply(P, b, s, e))
  {
    assert s.mutex == Held(e.pid) && Committing(s);
  }

  lemma BumpNewer(P: Program, b: Build, s: State, e: Event)
    requires Inv(P, s) && Enabled(P, s, e) && e.action.Bump?
    ensures NoNewer(s.versions, Apply(P, b, s, e).versions)
    ensures var f := Apply(P, b, s, e).procs[e.pid].phase;
            f.Installing? && Apply(P, b, s, e).procs == s.procs[e.pid := s.procs[e.pid].(phase := f)]
  {
    assert s.mutex == Held(e.pid) && Committing(s);
    assert ProcessOk(P, CommittedHeap(s), CommittedVersions(s), s.versions, s.procs[e.pid]);
  }

  lemma {:induction false} BumpKeeps(P: Program, b: Build, s: State, e: Event)
    requires Inv(P, s) && Enabled(P, s, e) && e.action.Bump?
    ensures Inv(P, Apply(P, b, s, e))
    ensures CommittedHeap(Apply(P, b, s, e)) == CommittedHeap(s)
    ensures CommittedVersions(Apply(P, b, s, e)) == CommittedVersions(s)
  {
    var s' := Apply(P, b, s, e);
    BumpCommitted(P, b, s, e);
    BumpInstalls(P, b, s, e);
    BumpNewer(P, b, s, e);
    forall j | 0 <= j < |s.procs|
      ensures ProcessOk(P, CommittedHeap(s), CommittedVersions(s), s'.versions, s'.procs[j])
    {
      QuietFrame(P, CommittedHeap(s), CommittedVersions(s), s.versions, s'.versions, s.procs[j]);
    }
  }

  /** When everything has been copied and bumped, the shared state is the committed state. */
  lemma NothingLeft(P: Program, s: State)
    requires Inv(P, s) && Committing(s) && s.procs[s.mutex.holder].phase.rest == {}
    ensures CommittedHeap(s) == s.heap && CommittedVersions(s) == s.versions
  {
    var p := s.procs[s.mutex.holder];
    forall g | g in p.tracker.writeSet ensures g in s.versions && s.versions[g] == p.tracker.writeSet[g] {
      assert Version(s.versions, g) == p.tracker.writeSet[g];
      assert p.tracker.writeSet[g] == Version(p.tracker.snapshot, g) + 1 by {
        assert ProcessOk(P, CommittedHeap(s), CommittedVersions(s), s.versions, p);
      }
    }
  }

  lemma UnlockKeeps(P: Program, b: Build, s: State, i: nat)
    requires Inv(P, s) && Enabled(P, s, Event(i, Unlock))
    ensures Inv(P, Apply(P, b, s, Event(i, Unlock)))
    ensures CommittedHeap(Apply(P, b, s, Event(i, Unlock))) == CommittedHeap(s)
    ensures CommittedVersions(Apply(P, b, s, Event(i, Unlock))) == CommittedVersions(s)
  {
    var s' := Apply(P, b, s, Event(i, Unlock));
    assert s.mutex == Held(i) && Committing(s) && !Committing(s');
    assert ProcessOk(P, CommittedHeap(s), CommittedVersions(s), s.versions, s.procs[i]);
    NothingLeft(P, s);
  }

  /** A step changes the process that makes it, and adds at most one. */
  lemma OthersUntouched(P: Program, b: Build, s: State, e: Event)
    requires Enabled(P, s, e)
    ensures var s' := Apply(P, b, s, e);
            |s'.procs| == |s.procs| + (if e.action.Fork? then 1 else 0)
            && (forall j :: 0 <= j < |s.procs| && j != e.pid ==> s'.procs[j] == s.procs[j])
            && !s.procs[e.pid].phase.Exited?
            && (!e.action.Fork? ==> s'.procs[e.pid].predecessor == s.procs[e.pid].predecessor)
  {
  }

  lemma SharedUntouched(P: Program, b: Build, s: State, e: Event)
    requires Enabled(P, s, e)
    requires !e.action.Validate? && !e.action.CopyCell? && !e.action.Bump? && !e.action.Unlock?
    ensures var s' := Apply(P, b, s, e);
            s'.heap == s.heap && s'.versions == s.versions && s'.mutex == if e.action.Lock? then Held(e.pid) else s.mutex
    ensures !Apply(P, b, s, e).procs[e.pid].phase.Installing?
  {
  }

  lemma HolderUntouched(P: Program, b: Build, s: State, e: Event)
    requires Inv(P, s) && Enabled(P, s, e)
    requires !e.action.Validate? && !e.action.CopyCell? && !e.action.Bump? && !e.action.Unlock?
    ensures var s' := Apply(P, b, s, e);
            s'.heap == s.heap && s'.versions == s.versions && Committing(s') == Committing(s)
            && (Committing(s) ==> s'.mutex == s.mutex && s'.procs[s.mutex.holder] == s.procs[s.mutex.holder])
  {
    OthersUntouched(P, b, s, e);
    SharedUntouched(P, b, s, e);
  }

  /** Only a validation changes the committed state. */
  lemma {:induction false} CommittedStateKept(P: Program, b: Build, s: State, e: Event)
    requires Inv(P, s) && Enabled(P, s, e) && !e.action.Validate?
    ensures CommittedHeap(Apply(P, b, s, e)) == CommittedHeap(s)
    ensures CommittedVersions(Apply(P, b, s, e)) == CommittedVersions(s)
  {
    match e.action {
      case Validate =>
      case CopyCell(_, _) => CopyKeeps(P, b, s, e);
      case Bump(_) => BumpKeeps(P, b, s, e);
      case Unlock => UnlockKeeps(P, b, s, e.pid);
      case _ => HolderUntouched(P, b, s, e);
    }
  }

  lemma {:induction false} StepKeeps(P: Program, b: Build, s: State, e: Event)
    requires Inv(P, s)
    ensures Inv(P, Step(P, b, s, e))
  {
    if Enabled(P, s, e) {
      match e.action {
        case Fault => FaultKeeps(P, b, s, e.pid);
        case Touch => TouchKeeps(P, b, s, e.pid);
        case Lock => LockKeeps(P, b, s, e.pid);
        case Validate => ValidateKeeps(P, b, s, e.pid);
        case CopyCell(_, _) => CopyKeeps(P, b, s, e);
        case Bump(_) => BumpKeeps(P, b, s, e);
        case Unlock => UnlockKeeps(P, b, s, e.pid);
        case Fork => ForkKeeps(P, b, s, e.pid);
        case Snapshot => StartKeeps(P, b, s, e);
        case Abort => StartKeeps(P, b, s, e);
        case JoinDone => StartKeeps(P, b, s, e);
        case _ => EndKeeps(P, b, s, e);
      }
    }
  }

  /** The invariant holds after every schedule. */
  lemma {:induction false} RunKeeps(P: Program, b: Build, s: State, schedule: Schedule)
    requires Inv(P, s)
    ensures Inv(P, Run(P, b, s, schedule))
  {
    if schedule != [] {
      RunKeeps(P, b, s, schedule[..|schedule| - 1]);
      StepKeeps(P, b, Run(P, b, s, schedule[..|schedule| - 1]), schedule[|schedule| - 1]);
    }
  }

  lemma InitialOk(P: Program, c: Context, h: Heap)
    ensures Inv(P, Initial(c, h))
  {
  }

  /** The maps are exact in every reachable state: between faults and accesses the read set is the
      set of pages touched, up to the page now faulting, the pages copied are the pages of the write
      set, and the permissions say so. */
  lemma TrackingIsExact(P: Program, b: Build, c: Context, h: Heap, schedule: Schedule, i: nat, g: Page)
    requires var s := Run(P, b, Initial(c, h), schedule); i < |s.procs| && Attempting(s.procs[i].phase)
    ensures var p := Run(P, b, Initial(c, h), schedule).procs[i];
            var pending := IsAccess(Next(P, p)) && Next(P, p).a.page == g;
            && (g in p.attempt.touched ==> Granted(p.tracker, g) != NoAccess)
            && (g in p.attempt.copies ==> Granted(p.tracker, g) == ReadWrite)
            && (Granted(p.tracker, g) != NoAccess && !pending ==> g in p.attempt.touched)
            && (Granted(p.tracker, g) == ReadWrite && !pending ==> g in p.attempt.copies)
  {
    InitialOk(P, c, h);
    RunKeeps(P, b, Initial(c, h), schedule);
    var s := Run(P, b, Initial(c, h), schedule);
    assert ProcessOk(P, CommittedHeap(s), CommittedVersions(s), s.versions, s.procs[i]);
  }
}
