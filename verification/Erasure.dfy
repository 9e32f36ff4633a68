/** Rollbacks leave no trace: delete every step of the attempts that fail, and what is left is a run
    that differs in the rollback counter only. */
module Erasure {
  import opened Memory
  import opened Segments
  import opened Tracking
  import opened Protocol
  import opened Invariant
  import opened Reaping

  // ---- what is deleted ----

  /** The attempt process `i` is making, or about to make, fails its validation in the rest of the
      schedule. */
  predicate Fails(P: Program, b: Build, s: State, i: nat, rest: Schedule)
    decreases |rest|
  {
    rest != [] &&
    var e := rest[0];
    if e.pid == i && Enabled(P, s, e) && (e.action.Validate? || e.action.CommitEmpty?) then
      e.action.Validate? && !Consistent(s.procs[i].tracker.readSet, s.versions)
    else
      Fails(P, b, Step(P, b, s, e), i, rest[1..])
  }

  predicate Doomed(P: Program, b: Build, s: State, i: nat, rest: Schedule) {
    i < |s.procs| &&
    var f := s.procs[i].phase;
    f.Aborting? || ((f.Beginning? || Attempting(f)) && Fails(P, b, s, i, rest))
  }

  /** The schedule without the steps of failing attempts, from their snapshot to their abort, and
      without the events that change nothing. */
  function Kept(P: Program, b: Build, s: State, rest: Schedule): Schedule
    decreases |rest|
  {
    if rest == [] then []
    else
      (if Enabled(P, s, rest[0]) && !Doomed(P, b, s, rest[0].pid, rest) then [rest[0]] else [])
      + Kept(P, b, Step(P, b, s, rest[0]), rest[1..])
  }

  /** Every event is enabled when it is its turn. */
  predicate Legal(P: Program, b: Build, s: State, schedule: Schedule)
    decreases |schedule|
  {
    schedule != [] ==> Enabled(P, s, schedule[0]) && Legal(P, b, Step(P, b, s, schedule[0]), schedule[1..])
  }

  lemma {:induction false} RunFromFirst(P: Program, b: Build, s: State, schedule: Schedule)
    requires schedule != []
    ensures Run(P, b, s, schedule) == Run(P, b, Step(P, b, s, schedule[0]), schedule[1..])
  {
    var n := |schedule| - 1;
    if n == 0 {
      assert schedule[..0] == [] && schedule[1..] == [];
    } else {
      RunFromFirst(P, b, s, schedule[..n]);
      assert schedule[1..][..n - 1] == schedule[..n][1..];
    }
  }

  // ---- a state and the state without its failing attempts ----

  /** `q` is `p`, or `p` before its failing attempt. */
  predicate Shadows(p: Process, q: Process, doomed: bool) {
    q.parent == p.parent && q.predecessor == p.predecessor && q.handles == p.handles && q.saved == p.saved &&
    if doomed || p.phase.Beginning? then q.phase.Beginning? && q.attempt == Start(q.saved)
    else q == p.(aborts := q.aborts)
  }

  /** The parent of `x` is going to reap it: its next attempt waits for it, or has yet to. */
  predicate StillAwaited(P: Program, t: State, x: nat) {
    0 < x < |t.procs| && t.procs[x].parent < |t.procs| &&
    var p := t.procs[t.procs[x].parent];
    p.predecessor == x && IsAccess(P.next(p.saved))
    && (p.phase.Beginning? || p.phase.Running? || p.phase.AwaitingPredecessor?)
  }

  predicate SharedAlike(s: State, t: State, doomed: set<nat>) {
    && t.heap == s.heap && t.versions == s.versions && t.log == s.log && t.rollbacks == 0
    && t.mutex == (if s.mutex.Held? && s.mutex.holder in doomed then Free else s.mutex)
  }

  predicate ProcsAlike(s: State, t: State, doomed: set<nat>) {
    |t.procs| == |s.procs| && forall i :: 0 <= i < |s.procs| ==> Shadows(s.procs[i], t.procs[i], i in doomed)
  }

  predicate ReapedAlike(P: Program, s: State, t: State) {
    t.reaped <= s.reaped && forall x :: x in s.reaped && x !in t.reaped ==> StillAwaited(P, t, x)
  }

  predicate Without(P: Program, s: State, t: State, doomed: set<nat>) {
    SharedAlike(s, t, doomed) && ProcsAlike(s, t, doomed) && ReapedAlike(P, s, t)
  }

  /** The processes whose current attempt fails. */
  function DoomedSet(P: Program, b: Build, s: State, rest: Schedule): set<nat> {
    set i: nat | 0 <= i < |s.procs| && Doomed(P, b, s, i, rest)
  }

  // ---- a step of a failing attempt ----

  predicate FailingStep(P: Program, s: State, e: Event) {
    Enabled(P, s, e) && !e.action.CommitEmpty? &&
    var f := s.procs[e.pid].phase;
    (f.Aborting? || f.Beginning? || Attempting(f)) &&
    (e.action.Validate? ==> !Consistent(s.procs[e.pid].tracker.readSet, s.versions))
  }

  lemma FailingStepIsQuiet(P: Program, b: Build, s: State, e: Event)
    requires FailingStep(P, s, e)
    ensures var s' := Apply(P, b, s, e); s'.heap == s.heap && s'.versions == s.versions && s'.log == s.log
  {
  }

  lemma FailingStepMutex(P: Program, b: Build, s: State, e: Event)
    requires FailingStep(P, s, e) && MutexOk(s)
    ensures var s' := Apply(P, b, s, e);
            s'.mutex == if e.action.Lock? then Held(e.pid) else if e.action.Validate? then Free else s.mutex
    ensures e.action.Lock? ==> s.mutex.Free?
    ensures e.action.Validate? ==> s.mutex == Held(e.pid)
    ensures e.action.Abort? ==> s.mutex != Held(e.pid)
  {
  }

  lemma FailingStepOwn(P: Program, b: Build, s: State, e: Event)
    requires FailingStep(P, s, e)
    ensures var s' := Apply(P, b, s, e);
            && s'.procs[e.pid].saved == s.procs[e.pid].saved
            && (s'.procs[e.pid].phase.Beginning? ==> e.action.Abort?)
            && s'.reaped == (if e.action.PredecessorGone? then Collect(s, e.pid, s.procs[e.pid].predecessor) else s.reaped)
  {
  }

  lemma DeletedReaped(P: Program, b: Build, s: State, t: State, e: Event, doomed: set<nat>)
    requires WaitersOk(P, s) && ProcsAlike(s, t, doomed) && ReapedAlike(P, s, t) && FailingStep(P, s, e) && e.pid in doomed
    ensures ReapedAlike(P, Apply(P, b, s, e), t)
  {
    var s' := Apply(P, b, s, e);
    FailingStepOwn(P, b, s, e);
    forall x | x in s'.reaped && x !in t.reaped ensures StillAwaited(P, t, x) {
      if x !in s.reaped {
        assert Shadows(s.procs[x], t.procs[x], x in doomed);
        assert Shadows(s.procs[e.pid], t.procs[e.pid], true);
        assert BeginsOk(P, s.procs[e.pid]);
      }
    }
  }

  lemma DeletedProcs(P: Program, b: Build, s: State, t: State, e: Event, doomed: set<nat>, doomed': set<nat>)
    requires ProcsAlike(s, t, doomed) && FailingStep(P, s, e) && e.pid in doomed
    requires forall j :: 0 <= j < |s.procs| && j != e.pid ==> (j in doomed' <==> j in doomed)
    requires e.pid in doomed' || e.action.Abort?
    ensures ProcsAlike(Apply(P, b, s, e), t, doomed')
  {
    var s' := Apply(P, b, s, e);
    FailingStepOwn(P, b, s, e);
    SameRelations(P, b, s, e);
    AbortRestarts(P, b, s, e);
    forall j | 0 <= j < |s'.procs| ensures Shadows(s'.procs[j], t.procs[j], j in doomed') {
      assert Shadows(s.procs[j], t.procs[j], j in doomed);
    }
  }

  lemma AbortRestarts(P: Program, b: Build, s: State, e: Event)
    requires Enabled(P, s, e)
    ensures e.action.Abort? ==> Apply(P, b, s, e).procs[e.pid].phase.Beginning?
  {
  }

  lemma StepDeleted(P: Program, b: Build, s: State, t: State, e: Event, doomed: set<nat>, doomed': set<nat>)
    requires Inv(P, s) && WaitersOk(P, s) && Without(P, s, t, doomed)
    requires FailingStep(P, s, e) && e.pid in doomed
    requires forall j :: 0 <= j < |s.procs| && j != e.pid ==> (j in doomed' <==> j in doomed)
    requires e.pid in doomed' || e.action.Abort?
    ensures Without(P, Apply(P, b, s, e), t, doomed')
  {
    FailingStepIsQuiet(P, b, s, e);
    FailingStepMutex(P, b, s, e);
    DeletedReaped(P, b, s, t, e, doomed);
    DeletedProcs(P, b, s, t, e, doomed, doomed');
  }

  // ---- a step of any other attempt ----

  predicate SucceedingStep(P: Program, s: State, e: Event) {
    Enabled(P, s, e) && (e.action.Validate? ==> Consistent(s.procs[e.pid].tracker.readSet, s.versions))
  }

  lemma WaitOverToo(P: Program, s: State, t: State, i: nat, x: nat, doomed: set<nat>)
    requires WaitersOk(P, s) && Without(P, s, t, doomed)
    requires i < |s.procs| && References(s.procs[i], x) && WaitOver(s, i, x)
    requires forall j :: j in doomed && j < |s.procs| ==> !s.procs[j].phase.Exited?
    ensures WaitOver(t, i, x)
  {
    if x != 0 {
      var p := s.procs[x].parent;
      assert Shadows(s.procs[x], t.procs[x], x in doomed);
      assert p < |s.procs| ==> Shadows(s.procs[p], t.procs[p], p in doomed);
      if x in s.reaped && x !in t.reaped {
        assert AwaitsChild(s, p) && s.procs[p].predecessor == x;
        assert SoleWaiter(s, p, i);
      }
    }
  }

  predicate DoomedOk(s: State, doomed: set<nat>) {
    forall j :: j in doomed ==>
      j < |s.procs| &&
      var f := s.procs[j].phase; f.Aborting? || f.Beginning? || Attempting(f)
  }

  lemma EnabledToo(P: Program, s: State, t: State, e: Event, doomed: set<nat>)
    requires WaitersOk(P, s) && Without(P, s, t, doomed) && DoomedOk(s, doomed)
    requires Enabled(P, s, e) && e.pid !in doomed && !e.action.Abort?
    requires s.procs[e.pid].phase.Beginning? ==> s.procs[e.pid].attempt == Start(s.procs[e.pid].saved)
    ensures Enabled(P, t, e)
  {
    var p := s.procs[e.pid];
    assert Shadows(p, t.procs[e.pid], false);
    if e.action.PredecessorGone? {
      WaitOverToo(P, s, t, e.pid, p.predecessor, doomed);
    }
    if e.action.JoinDone? {
      WaitOverToo(P, s, t, e.pid, p.handles[Next(P, p).handle], doomed);
    }
  }

  /** The same step makes the same change in both states. */
  lemma SameHeapAndVersions(P: Program, b: Build, s: State, t: State, e: Event)
    requires SucceedingStep(P, s, e) && Enabled(P, t, e) && t.heap == s.heap && t.versions == s.versions
    requires Shadows(s.procs[e.pid], t.procs[e.pid], false)
    ensures var s', t' := Apply(P, b, s, e), Apply(P, b, t, e); t'.heap == s'.heap && t'.versions == s'.versions
  {
  }

  lemma SameCommit(P: Program, b: Build, s: State, t: State, e: Event)
    requires SucceedingStep(P, s, e) && Enabled(P, t, e) && t.versions == s.versions && t.log == s.log
    requires Shadows(s.procs[e.pid], t.procs[e.pid], false)
    ensures var s', t' := Apply(P, b, s, e), Apply(P, b, t, e); t'.log == s'.log && t'.rollbacks == t.rollbacks
  {
  }

  lemma MutexAfter(P: Program, b: Build, s: State, e: Event)
    requires SucceedingStep(P, s, e)
    ensures Apply(P, b, s, e).mutex == if e.action.Lock? then Held(e.pid) else if e.action.Unlock? then Free else s.mutex
  {
  }

  lemma SharedKept(P: Program, b: Build, s: State, t: State, e: Event, doomed: set<nat>, doomed': set<nat>)
    requires SucceedingStep(P, s, e) && Enabled(P, t, e) && MutexOk(s)
    requires SharedAlike(s, t, doomed) && Shadows(s.procs[e.pid], t.procs[e.pid], false) && e.pid !in doomed
    requires s.mutex.Held? && s.mutex.holder != e.pid ==> (s.mutex.holder in doomed' <==> s.mutex.holder in doomed)
    requires HoldsMutex(Apply(P, b, s, e).procs[e.pid].phase) ==> e.pid !in doomed'
    ensures SharedAlike(Apply(P, b, s, e), Apply(P, b, t, e), doomed')
  {
    SameHeapAndVersions(P, b, s, t, e);
    SameCommit(P, b, s, t, e);
    MutexAfter(P, b, s, e);
    MutexAfter(P, b, t, e);
    if e.action.Lock? || s.mutex == Held(e.pid) {
      HolderGoesOn(P, b, s, e);
    }
  }

  lemma HolderGoesOn(P: Program, b: Build, s: State, e: Event)
    requires SucceedingStep(P, s, e) && (e.action.Lock? || (s.mutex == Held(e.pid) && HoldsMutex(s.procs[e.pid].phase)))
    ensures e.action.Unlock? || HoldsMutex(Apply(P, b, s, e).procs[e.pid].phase)
  {
  }

  lemma SameOwnChange(P: Program, b: Build, s: State, t: State, e: Event)
    requires SucceedingStep(P, s, e) && Enabled(P, t, e) && !e.action.Abort? && !e.action.Fork?
    requires t.heap == s.heap && t.versions == s.versions && t.log == s.log
    requires Shadows(s.procs[e.pid], t.procs[e.pid], false)
    requires s.procs[e.pid].phase.Beginning? ==> s.procs[e.pid].attempt == Start(s.procs[e.pid].saved)
    ensures var s', t' := Apply(P, b, s, e), Apply(P, b, t, e);
            Shadows(s'.procs[e.pid], t'.procs[e.pid], s'.procs[e.pid].phase.Beginning?)
  {
  }

  lemma SameFork(P: Program, b: Build, s: State, t: State, i: nat)
    requires Enabled(P, s, Event(i, Fork)) && Enabled(P, t, Event(i, Fork)) && |t.procs| == |s.procs| && t.log == s.log
    requires Shadows(s.procs[i], t.procs[i], false)
    ensures var s', t' := Forked(P, b, s, i), Forked(P, b, t, i);
            Shadows(s'.procs[i], t'.procs[i], true) && Shadows(s'.procs[|s.procs|], t'.procs[|s.procs|], true)
  {
  }

  predicate SameDoom(s: State, s': State, i: nat, doomed: set<nat>, doomed': set<nat>)
    requires i < |s.procs| <= |s'.procs|
  {
    && (forall j :: 0 <= j < |s.procs| && j != i ==> (j in doomed' <==> j in doomed))
    && (forall j :: 0 <= j < |s'.procs| && (j == i || j >= |s.procs|) && j in doomed' ==> s'.procs[j].phase.Beginning?)
  }

  lemma ForkKept(P: Program, b: Build, s: State, t: State, i: nat, doomed: set<nat>, doomed': set<nat>)
    requires ProcsAlike(s, t, doomed) && ReapedAlike(P, s, t) && t.log == s.log
    requires Enabled(P, s, Event(i, Fork)) && Enabled(P, t, Event(i, Fork)) && i !in doomed
    requires SameDoom(s, Forked(P, b, s, i), i, doomed, doomed')
    ensures ProcsAlike(Forked(P, b, s, i), Forked(P, b, t, i), doomed')
    ensures ReapedAlike(P, Forked(P, b, s, i), Forked(P, b, t, i))
  {
    var s', t' := Forked(P, b, s, i), Forked(P, b, t, i);
    var n := |s.procs|;
    assert Shadows(s.procs[i], t.procs[i], false);
    SameFork(P, b, s, t, i);
    forall j | 0 <= j <= n ensures Shadows(s'.procs[j], t'.procs[j], j in doomed') {
      assert j < n ==> Shadows(s.procs[j], t.procs[j], j in doomed);
    }
    forall x | x in s'.reaped && x !in t'.reaped ensures StillAwaited(P, t', x) {
      assert StillAwaited(P, t, x);
    }
  }

  lemma OneProcChanged(s: State, s': State, t: State, t': State, i: nat, doomed: set<nat>, doomed': set<nat>)
    requires |s'.procs| == |s.procs| == |t'.procs| && i < |s.procs|
    requires ProcsAlike(s, t, doomed) && SameDoom(s, s', i, doomed, doomed')
    requires forall j :: 0 <= j < |s.procs| && j != i ==> s'.procs[j] == s.procs[j] && t'.procs[j] == t.procs[j]
    requires Shadows(s'.procs[i], t'.procs[i], s'.procs[i].phase.Beginning?)
    ensures ProcsAlike(s', t', doomed')
  {
    forall j | 0 <= j < |s'.procs| ensures Shadows(s'.procs[j], t'.procs[j], j in doomed') {
      assert Shadows(s.procs[j], t.procs[j], j in doomed);
    }
  }

  lemma ProcsKept(P: Program, b: Build, s: State, t: State, e: Event, doomed: set<nat>, doomed': set<nat>)
    requires SharedAlike(s, t, doomed) && ProcsAlike(s, t, doomed) && SucceedingStep(P, s, e) && Enabled(P, t, e)
    requires e.pid !in doomed && !e.action.Abort? && !e.action.Fork?
    requires SameDoom(s, Apply(P, b, s, e), e.pid, doomed, doomed')
    requires s.procs[e.pid].phase.Beginning? ==> s.procs[e.pid].attempt == Start(s.procs[e.pid].saved)
    ensures ProcsAlike(Apply(P, b, s, e), Apply(P, b, t, e), doomed')
  {
    assert Shadows(s.procs[e.pid], t.procs[e.pid], false);
    SameOwnChange(P, b, s, t, e);
    SameRelations(P, b, s, e);
    SameRelations(P, b, t, e);
    OneProcChanged(s, Apply(P, b, s, e), t, Apply(P, b, t, e), e.pid, doomed, doomed');
  }

  /** The parent of `x` keeps waiting until it reaps `x`. */
  lemma StillAwaitedAfter(P: Program, b: Build, t: State, e: Event, x: nat)
    requires Enabled(P, t, e) && !e.action.Fork? && StillAwaited(P, t, x) && BeginsOk(P, t.procs[e.pid])
    requires t.procs[x].parent == e.pid ==> !e.action.PredecessorGone?
    ensures StillAwaited(P, Apply(P, b, t, e), x)
  {
    SameRelations(P, b, t, e);
  }

  lemma ReapedAfter(P: Program, b: Build, s: State, e: Event)
    requires Enabled(P, s, e)
    ensures Apply(P, b, s, e).reaped ==
              if e.action.PredecessorGone? then Collect(s, e.pid, s.procs[e.pid].predecessor)
              else if e.action.JoinDone? then Collect(s, e.pid, s.procs[e.pid].handles[Next(P, s.procs[e.pid]).handle])
              else s.reaped
  {
  }

  lemma SameCollected(s: State, t: State, i: nat, x: nat, doomed: set<nat>)
    requires ProcsAlike(s, t, doomed)
    ensures exists more :: Collect(s, i, x) == s.reaped + more && Collect(t, i, x) == t.reaped + more
                           && (0 < x < |s.procs| && s.procs[x].parent == i ==> x in more)
  {
    var more: set<nat> := if 0 < x < |s.procs| && s.procs[x].parent == i then {x} else {};
    assert x < |s.procs| ==> Shadows(s.procs[x], t.procs[x], x in doomed);
    assert Collect(s, i, x) == s.reaped + more && Collect(t, i, x) == t.reaped + more;
  }

  /** What is reaped in `s'` and not in `t'` was so before, and its parent is not the one that moved on. */
  lemma ReapedSince(P: Program, b: Build, s: State, t: State, e: Event, doomed: set<nat>)
    requires Enabled(P, s, e) && Enabled(P, t, e) && ProcsAlike(s, t, doomed) && t.reaped <= s.reaped
    requires e.pid !in doomed
    ensures var s', t' := Apply(P, b, s, e), Apply(P, b, t, e);
            t'.reaped <= s'.reaped &&
            forall x :: x in s'.reaped && x !in t'.reaped ==>
              x in s.reaped && x !in t.reaped &&
              (e.action.PredecessorGone? ==>
                 !(0 < x < |t.procs| && t.procs[x].parent == e.pid && t.procs[e.pid].predecessor == x))
  {
    var p, q := s.procs[e.pid], t.procs[e.pid];
    assert Shadows(p, q, false);
    ReapedAfter(P, b, s, e);
    ReapedAfter(P, b, t, e);
    if e.action.PredecessorGone? {
      SameCollected(s, t, e.pid, p.predecessor, doomed);
      assert forall x: nat :: x < |s.procs| ==> Shadows(s.procs[x], t.procs[x], x in doomed);
    } else if e.action.JoinDone? {
      SameCollected(s, t, e.pid, p.handles[Next(P, p).handle], doomed);
    }
  }

  lemma ReapedKept(P: Program, b: Build, s: State, t: State, e: Event, doomed: set<nat>)
    requires Enabled(P, s, e) && Enabled(P, t, e) && ProcsAlike(s, t, doomed) && ReapedAlike(P, s, t)
    requires e.pid !in doomed && !e.action.Fork? && BeginsOk(P, t.procs[e.pid])
    ensures ReapedAlike(P, Apply(P, b, s, e), Apply(P, b, t, e))
  {
    var s', t' := Apply(P, b, s, e), Apply(P, b, t, e);
    ReapedSince(P, b, s, t, e, doomed);
    forall x | x in s'.reaped && x !in t'.reaped ensures StillAwaited(P, t', x) {
      StillAwaitedAfter(P, b, t, e, x);
    }
  }

  lemma BeginningOk(P: Program, s: State, i: nat)
    requires Inv(P, s) && i < |s.procs| && s.procs[i].phase.Beginning?
    ensures s.procs[i].attempt == Start(s.procs[i].saved)
  {
    assert ProcessOk(P, CommittedHeap(s), CommittedVersions(s), s.versions, s.procs[i]);
  }

  lemma StepKept(P: Program, b: Build, s: State, t: State, e: Event, doomed: set<nat>, doomed': set<nat>)
    requires Inv(P, s) && WaitersOk(P, s) && Without(P, s, t, doomed) && DoomedOk(s, doomed)
    requires SucceedingStep(P, s, e) && e.pid !in doomed && !e.action.Abort?
    requires SameDoom(s, Apply(P, b, s, e), e.pid, doomed, doomed')
    ensures Enabled(P, t, e) && Without(P, Apply(P, b, s, e), Apply(P, b, t, e), doomed')
  {
    if s.procs[e.pid].phase.Beginning? {
      BeginningOk(P, s, e.pid);
    }
    EnabledToo(P, s, t, e, doomed);
    assert Shadows(s.procs[e.pid], t.procs[e.pid], false) && BeginsOk(P, s.procs[e.pid]);
    SharedKept(P, b, s, t, e, doomed, doomed');
    if e.action.Fork? {
      ForkKept(P, b, s, t, e.pid, doomed, doomed');
    } else {
      ProcsKept(P, b, s, t, e, doomed, doomed');
      ReapedKept(P, b, s, t, e, doomed);
    }
  }

  // ---- the rest of a schedule ----

  /** Who is doomed changes only where the process that steps begins or ends an attempt. */
  lemma DoomAfter(P: Program, b: Build, s: State, rest: Schedule, j: nat)
    requires rest != [] && j < |s.procs| && (j != rest[0].pid || !Enabled(P, s, rest[0]))
    ensures var s' := Step(P, b, s, rest[0]);
            j < |s'.procs| && (Doomed(P, b, s', j, rest[1..]) <==> Doomed(P, b, s, j, rest))
  {
    if Enabled(P, s, rest[0]) {
      OthersUntouched(P, b, s, rest[0]);
    }
  }

  /** A doomed process that steps stays doomed until it aborts. */
  lemma DoomedSteps(P: Program, b: Build, s: State, rest: Schedule)
    requires rest != [] && Enabled(P, s, rest[0]) && Doomed(P, b, s, rest[0].pid, rest)
    ensures FailingStep(P, s, rest[0])
    ensures Doomed(P, b, Apply(P, b, s, rest[0]), rest[0].pid, rest[1..]) || rest[0].action.Abort?
  {
  }

  /** A process that is not doomed can be so after its step only for its next attempt. */
  lemma OthersStep(P: Program, b: Build, s: State, rest: Schedule, j: nat)
    requires rest != [] && Enabled(P, s, rest[0]) && !Doomed(P, b, s, rest[0].pid, rest)
    requires j == rest[0].pid || j >= |s.procs|
    ensures SucceedingStep(P, s, rest[0]) && !rest[0].action.Abort?
    ensures var s' := Apply(P, b, s, rest[0]); Doomed(P, b, s', j, rest[1..]) ==> s'.procs[j].phase.Beginning?
  {
  }

  lemma {:induction false} ErasesRest(P: Program, b: Build, s: State, t: State, rest: Schedule)
    requires Inv(P, s) && WaitersOk(P, s) && Without(P, s, t, DoomedSet(P, b, s, rest))
    ensures Legal(P, b, t, Kept(P, b, s, rest))
    ensures var s' := Run(P, b, s, rest); Without(P, s', Run(P, b, t, Kept(P, b, s, rest)), DoomedSet(P, b, s', []))
    decreases |rest|
  {
    if rest != [] {
      var e := rest[0];
      var s' := Step(P, b, s, e);
      var doomed, doomed' := DoomedSet(P, b, s, rest), DoomedSet(P, b, s', rest[1..]);
      var t' := if Enabled(P, s, e) && !Doomed(P, b, s, e.pid, rest) then Step(P, b, t, e) else t;
      ErasesOne(P, b, s, t, rest);
      StepKeeps(P, b, s, e);
      StepKeepsWaiters(P, b, s, e);
      RunFromFirst(P, b, s, rest);
      ErasesRest(P, b, s', t', rest[1..]);
      var kept := Kept(P, b, s, rest);
      if Enabled(P, s, e) && !Doomed(P, b, s, e.pid, rest) {
        assert kept[0] == e && kept[1..] == Kept(P, b, s', rest[1..]);
        RunFromFirst(P, b, t, kept);
      } else {
        assert kept == Kept(P, b, s', rest[1..]);
      }
    }
  }

  lemma ErasesOne(P: Program, b: Build, s: State, t: State, rest: Schedule)
    requires rest != [] && Inv(P, s) && WaitersOk(P, s) && Without(P, s, t, DoomedSet(P, b, s, rest))
    ensures var s' := Step(P, b, s, rest[0]);
            var doomed' := DoomedSet(P, b, s', rest[1..]);
            if Enabled(P, s, rest[0]) && !Doomed(P, b, s, rest[0].pid, rest)
            then Enabled(P, t, rest[0]) && Without(P, s', Step(P, b, t, rest[0]), doomed')
            else Without(P, s', t, doomed')
  {
    var e := rest[0];
    var s' := Step(P, b, s, e);
    var doomed, doomed' := DoomedSet(P, b, s, rest), DoomedSet(P, b, s', rest[1..]);
    forall j | 0 <= j < |s.procs| && (j != e.pid || !Enabled(P, s, e)) ensures j in doomed' <==> j in doomed {
      DoomAfter(P, b, s, rest, j);
    }
    if !Enabled(P, s, e) {
      assert doomed' == doomed;
    } else if Doomed(P, b, s, e.pid, rest) {
      DoomedSteps(P, b, s, rest);
      OthersUntouched(P, b, s, e);
      StepDeleted(P, b, s, t, e, doomed, doomed');
    } else {
      OthersStep(P, b, s, rest, e.pid);
      OthersUntouched(P, b, s, e);
      forall j | 0 <= j < |s'.procs| && (j == e.pid || j >= |s.procs|) && j in doomed' ensures s'.procs[j].phase.Beginning? {
        OthersStep(P, b, s, rest, j);
      }
      StepKept(P, b, s, t, e, doomed, doomed');
    }
  }

  // ---- the theorem ----

  /** Deleting the steps of the aborted attempts from any run of either build leaves a legal run with
      the same heap, versions, mutex and commits, and no rollback. A process that is rolling back is
      at the beginning of the same segment instead; every other process is where it was. */
  lemma {:induction false} DeletionIsLegal(P: Program, b: Build, c: Context, h: Heap, schedule: Schedule)
    ensures var kept := Kept(P, b, Initial(c, h), schedule);
            var s, t := Run(P, b, Initial(c, h), schedule), Run(P, b, Initial(c, h), kept);
            && Legal(P, b, Initial(c, h), kept) && t.rollbacks == 0
            && t.heap == s.heap && t.versions == s.versions && t.log == s.log && t.mutex == s.mutex
            && |t.procs| == |s.procs|
            && (forall i :: 0 <= i < |s.procs| ==> Shadows(s.procs[i], t.procs[i], s.procs[i].phase.Aborting?))
            && ReapedAlike(P, s, t)
  {
    var o := Initial(c, h);
    InitialOk(P, c, h);
    ErasesRest(P, b, o, o, schedule);
    RunKeeps(P, b, o, schedule);
    NobodyElseDoomed(P, b, Run(P, b, o, schedule), Run(P, b, o, Kept(P, b, o, schedule)));
  }

  /** At the end of the schedule only the processes that are rolling back are doomed. */
  lemma NobodyElseDoomed(P: Program, b: Build, s: State, t: State)
    requires Inv(P, s) && Without(P, s, t, DoomedSet(P, b, s, []))
    ensures t.mutex == s.mutex
    ensures forall i :: 0 <= i < |s.procs| ==> Shadows(s.procs[i], t.procs[i], s.procs[i].phase.Aborting?)
  {
    forall i | 0 <= i < |s.procs| ensures Shadows(s.procs[i], t.procs[i], s.procs[i].phase.Aborting?) {
      assert Shadows(s.procs[i], t.procs[i], i in DoomedSet(P, b, s, []));
    }
  }

  // ---- nothing else is deleted ----

  lemma RollbacksOnlyGrow(P: Program, b: Build, s: State, e: Event)
    ensures s.rollbacks <= Step(P, b, s, e).rollbacks
    ensures Enabled(P, s, e) && e.action.Validate? && !Consistent(s.procs[e.pid].tracker.readSet, s.versions)
            ==> s.rollbacks < Step(P, b, s, e).rollbacks
  {
  }

  lemma {:induction false} RestOnlyAddsRollbacks(P: Program, b: Build, s: State, rest: Schedule)
    ensures s.rollbacks <= Run(P, b, s, rest).rollbacks
  {
    if rest != [] {
      RestOnlyAddsRollbacks(P, b, s, rest[..|rest| - 1]);
      RollbacksOnlyGrow(P, b, Run(P, b, s, rest[..|rest| - 1]), rest[|rest| - 1]);
    }
  }

  lemma {:induction false} FailureIsCounted(P: Program, b: Build, s: State, i: nat, rest: Schedule)
    requires Fails(P, b, s, i, rest)
    ensures s.rollbacks < Run(P, b, s, rest).rollbacks
    decreases |rest|
  {
    RunFromFirst(P, b, s, rest);
    RollbacksOnlyGrow(P, b, s, rest[0]);
    RestOnlyAddsRollbacks(P, b, Step(P, b, s, rest[0]), rest[1..]);
    if Fails(P, b, Step(P, b, s, rest[0]), i, rest[1..]) {
      FailureIsCounted(P, b, Step(P, b, s, rest[0]), i, rest[1..]);
    }
  }

  /** A run in which nothing fails is left as it is. */
  lemma {:induction false} NothingElseIsDeleted(P: Program, b: Build, s: State, rest: Schedule)
    requires Legal(P, b, s, rest) && Run(P, b, s, rest).rollbacks == s.rollbacks
    requires forall i :: 0 <= i < |s.procs| ==> !s.procs[i].phase.Aborting?
    ensures Kept(P, b, s, rest) == rest
    decreases |rest|
  {
    if rest != [] {
      var e := rest[0];
      FirstIsKept(P, b, s, rest);
      NoAbortStarts(P, b, s, e);
      NothingElseIsDeleted(P, b, Step(P, b, s, e), rest[1..]);
      assert rest == [e] + rest[1..];
    }
  }

  lemma {:induction false} FirstIsKept(P: Program, b: Build, s: State, rest: Schedule)
    requires rest != [] && Enabled(P, s, rest[0]) && Run(P, b, s, rest).rollbacks == s.rollbacks
    requires forall i :: 0 <= i < |s.procs| ==> !s.procs[i].phase.Aborting?
    ensures !Doomed(P, b, s, rest[0].pid, rest)
    ensures var s' := Step(P, b, s, rest[0]); s'.rollbacks == s.rollbacks == Run(P, b, s', rest[1..]).rollbacks
  {
    if Fails(P, b, s, rest[0].pid, rest) {
      FailureIsCounted(P, b, s, rest[0].pid, rest);
    }
    RunFromFirst(P, b, s, rest);
    RollbacksOnlyGrow(P, b, s, rest[0]);
    RestOnlyAddsRollbacks(P, b, Step(P, b, s, rest[0]), rest[1..]);
  }

  lemma NoAbortStarts(P: Program, b: Build, s: State, e: Event)
    requires forall i :: 0 <= i < |s.procs| ==> !s.procs[i].phase.Aborting?
    requires Step(P, b, s, e).rollbacks == s.rollbacks
    ensures var s' := Step(P, b, s, e); forall i :: 0 <= i < |s'.procs| ==> !s'.procs[i].phase.Aborting?
  {
    if Enabled(P, s, e) {
      OthersUntouched(P, b, s, e);
      OwnDoesNotAbort(P, b, s, e);
    }
  }

  lemma OwnDoesNotAbort(P: Program, b: Build, s: State, e: Event)
    requires Enabled(P, s, e) && Apply(P, b, s, e).rollbacks == s.rollbacks && !s.procs[e.pid].phase.Aborting?
    ensures !Apply(P, b, s, e).procs[e.pid].phase.Aborting?
    ensures e.action.Fork? ==> Apply(P, b, s, e).procs[|s.procs|].phase.Beginning?
  {
  }
}
