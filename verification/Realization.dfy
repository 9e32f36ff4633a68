/** The serial specification is tight: every feasible serial execution whose waits can end is a run of
    the runtime in which nothing is ever rolled back. */
module Realization {
  import opened Memory
  import opened Segments
  import opened Tracking
  import opened Protocol
  import opened Invariant
  import opened Serial
  import opened Refinement
  import Termination
  import Deadlock

  ghost predicate Reaches(P: Program, b: Build, s: State, s': State) {
    exists schedule: Schedule :: Run(P, b, s, schedule) == s'
  }

  lemma {:induction false} RunAppends(P: Program, b: Build, s: State, x: Schedule, y: Schedule)
    ensures Run(P, b, s, x + y) == Run(P, b, Run(P, b, s, x), y)
  {
    if y == [] {
      assert x + y == x;
    } else {
      assert (x + y)[..|x + y| - 1] == x + y[..|y| - 1];
      RunAppends(P, b, s, x, y[..|y| - 1]);
    }
  }

  lemma ReachesOn(P: Program, b: Build, s: State, t: State, u: State)
    requires Reaches(P, b, s, t) && Reaches(P, b, t, u)
    ensures Reaches(P, b, s, u)
  {
    var x: Schedule :| Run(P, b, s, x) == t;
    var y: Schedule :| Run(P, b, t, y) == u;
    RunAppends(P, b, s, x, y);
  }

  lemma {:induction false} ReachesStep(P: Program, b: Build, s: State, t: State, e: Event)
    requires Reaches(P, b, s, t) && Enabled(P, t, e) && Inv(P, t)
    ensures Reaches(P, b, s, Apply(P, b, t, e)) && Inv(P, Apply(P, b, t, e))
  {
    assert [e][..0] == [];
    assert Run(P, b, t, [e]) == Step(P, b, Run(P, b, t, []), e);
    ReachesOn(P, b, s, t, Apply(P, b, t, e));
    StepKeeps(P, b, t, e);
  }

  lemma ReachesSelf(P: Program, b: Build, s: State)
    ensures Reaches(P, b, s, s)
  {
    assert Run(P, b, s, []) == s;
  }

  // ---- steps of one process only ----

  predicate OnlyBy(schedule: Schedule, i: nat) {
    forall k :: 0 <= k < |schedule| ==> schedule[k].pid == i
  }

  ghost predicate ReachesBy(P: Program, b: Build, i: nat, s: State, s': State) {
    exists schedule: Schedule :: OnlyBy(schedule, i) && Run(P, b, s, schedule) == s'
  }

  lemma ReachesBySelf(P: Program, b: Build, i: nat, s: State)
    ensures ReachesBy(P, b, i, s, s)
  {
    assert OnlyBy([], i) && Run(P, b, s, []) == s;
  }

  lemma ReachesByOn(P: Program, b: Build, i: nat, s: State, t: State, u: State)
    requires ReachesBy(P, b, i, s, t) && ReachesBy(P, b, i, t, u)
    ensures ReachesBy(P, b, i, s, u)
  {
    var x: Schedule :| OnlyBy(x, i) && Run(P, b, s, x) == t;
    var y: Schedule :| OnlyBy(y, i) && Run(P, b, t, y) == u;
    RunAppends(P, b, s, x, y);
    assert OnlyBy(x + y, i);
  }

  lemma {:induction false} ReachesByStep(P: Program, b: Build, i: nat, s: State, t: State, e: Event)
    requires ReachesBy(P, b, i, s, t) && e.pid == i && Enabled(P, t, e) && Inv(P, t)
    ensures ReachesBy(P, b, i, s, Apply(P, b, t, e)) && Inv(P, Apply(P, b, t, e))
  {
    var x: Schedule :| OnlyBy(x, i) && Run(P, b, s, x) == t;
    assert (x + [e])[..|x + [e]| - 1] == x;
    assert OnlyBy(x + [e], i) && Run(P, b, s, x + [e]) == Apply(P, b, t, e);
    StepKeeps(P, b, t, e);
  }

  // ---- a segment on its own ----

  /** `t` is `s` after process `i` alone has made the first `n` accesses of its segment. */
  predicate Underway(P: Program, s: State, t: State, i: nat, n: nat) {
    i < |s.procs| && |t.procs| == |s.procs| &&
    var p, q := s.procs[i], t.procs[i];
    && t == Put(s, i, q)
    && q.phase.Running? && q.tracker.snapshot == s.versions
    && q.attempt == Undisturbed(P, p.saved, s.heap, n)
    && q == p.(phase := Running, tracker := q.tracker, attempt := q.attempt, accesses := q.accesses, since := q.since)
  }

  lemma FaultAlone(P: Program, b: Build, s: State, t: State, i: nat, n: nat)
    requires Inv(P, t) && Underway(P, s, t, i, n) && Enabled(P, t, Event(i, Fault))
    ensures var u := Apply(P, b, t, Event(i, Fault));
            Underway(P, s, u, i, n) && Next(P, u.procs[i]) == Next(P, t.procs[i])
            && Termination.FaultsAhead(u.procs[i].tracker, Next(P, u.procs[i]))
               < Termination.FaultsAhead(t.procs[i].tracker, Next(P, t.procs[i]))
  {
    assert ProcessOk(P, CommittedHeap(t), CommittedVersions(t), t.versions, t.procs[i]);
    var k := t.procs[i].tracker;
    var g := Next(P, t.procs[i]).a.page;
    assert Faulted(k, g).snapshot == k.snapshot;
  }

  lemma TouchAlone(P: Program, b: Build, s: State, t: State, i: nat, n: nat)
    requires Underway(P, s, t, i, n) && Enabled(P, t, Event(i, Touch))
    ensures Underway(P, s, Apply(P, b, t, Event(i, Touch)), i, n + 1)
  {
  }

  lemma AccessAlone(P: Program, b: Build, s: State, t: State, i: nat, n: nat) returns (u: State)
    requires Inv(P, t) && Underway(P, s, t, i, n) && IsAccess(Next(P, t.procs[i])) && ReachesBy(P, b, i, s, t)
    ensures Inv(P, u) && Underway(P, s, u, i, n + 1) && ReachesBy(P, b, i, s, u)
    decreases Termination.FaultsAhead(t.procs[i].tracker, Next(P, t.procs[i]))
  {
    if Enabled(P, t, Event(i, Touch)) {
      ReachesByStep(P, b, i, s, t, Event(i, Touch));
      TouchAlone(P, b, s, t, i, n);
      u := Apply(P, b, t, Event(i, Touch));
    } else {
      ReachesByStep(P, b, i, s, t, Event(i, Fault));
      FaultAlone(P, b, s, t, i, n);
      u := AccessAlone(P, b, s, Apply(P, b, t, Event(i, Fault)), i, n);
    }
  }

  lemma {:induction false} AccessesAlone(P: Program, b: Build, s: State, i: nat, n: nat) returns (t: State)
    requires Inv(P, s) && i < |s.procs| && s.procs[i].phase.Beginning? && s.mutex.Free?
    ensures Inv(P, t) && Underway(P, s, t, i, n) && ReachesBy(P, b, i, s, t)
  {
    if n == 0 {
      ReachesBySelf(P, b, i, s);
      assert ProcessOk(P, CommittedHeap(s), CommittedVersions(s), s.versions, s.procs[i]);
      ReachesByStep(P, b, i, s, s, Event(i, Snapshot));
      t := Apply(P, b, s, Event(i, Snapshot));
    } else {
      t := AccessesAlone(P, b, s, i, n - 1);
      if IsAccess(Next(P, t.procs[i])) {
        t := AccessAlone(P, b, s, t, i, n - 1);
      }
    }
  }

  /** The commit of `p` in `t` has been carried out in `u`. */
  predicate Installed(t: State, u: State, i: nat) {
    i < |t.procs| && u.procs == t.procs[i := t.procs[i].(phase := Synced, attempt := t.procs[i].attempt.(copies := map[]))]
    && u.mutex.Free? && u.heap == CommittedHeap(t) && u.versions == CommittedVersions(t)
    && u.log == t.log && u.rollbacks == t.rollbacks && u.reaped == t.reaped
  }

  lemma InstallAlone(P: Program, b: Build, s: State, t: State, i: nat) returns (u: State)
    requires Inv(P, t) && t.mutex == Held(i) && Committing(t) && ReachesBy(P, b, i, s, t)
    ensures Inv(P, u) && Installed(t, u, i) && ReachesBy(P, b, i, s, u)
    decreases Termination.CopyWork(t.heap, t.procs[i].attempt.copies, t.procs[i].phase.rest, NUM_PAGES)
  {
    var e := Deadlock.HolderCanStep(P, t);
    ReachesByStep(P, b, i, s, t, e);
    var v := Apply(P, b, t, e);
    if e.action.Unlock? {
      u := v;
      UnlockInstalls(P, b, t, i);
    } else {
      CommittedStateKept(P, b, t, e);
      InstallStep(P, b, t, e, i);
      u := InstallAlone(P, b, s, v, i);
      InstalledBefore(t, v, u, i);
    }
  }

  /** What has been carried out for `v` has been carried out for the state before. */
  lemma InstalledBefore(t: State, v: State, u: State, i: nat)
    requires i < |t.procs| == |v.procs| && Installed(v, u, i) && v.procs == t.procs[i := t.procs[i].(phase := v.procs[i].phase)]
    requires v.log == t.log && v.rollbacks == t.rollbacks && v.reaped == t.reaped
    requires CommittedHeap(v) == CommittedHeap(t) && CommittedVersions(v) == CommittedVersions(t)
    ensures Installed(t, u, i)
  {
  }

  lemma UnlockInstalls(P: Program, b: Build, t: State, i: nat)
    requires Inv(P, t) && Enabled(P, t, Event(i, Unlock))
    ensures Installed(t, Apply(P, b, t, Event(i, Unlock)), i)
  {
    assert t.mutex == Held(i) && Committing(t);
    NothingLeft(P, t);
  }

  lemma InstallStep(P: Program, b: Build, t: State, e: Event, i: nat)
    requires Inv(P, t) && t.mutex == Held(i) && Committing(t) && Enabled(P, t, e) && e.pid == i
    requires e.action.CopyCell? || e.action.Bump?
    ensures var v := Apply(P, b, t, e);
            v.mutex == Held(i) && Committing(v) && v.log == t.log && v.rollbacks == t.rollbacks && v.reaped == t.reaped
            && v.procs == t.procs[i := t.procs[i].(phase := v.procs[i].phase)]
            && Termination.CopyWork(v.heap, v.procs[i].attempt.copies, v.procs[i].phase.rest, NUM_PAGES)
               < Termination.CopyWork(t.heap, t.procs[i].attempt.copies, t.procs[i].phase.rest, NUM_PAGES)
  {
    var p := t.procs[i];
    if e.action.CopyCell? {
      Termination.CopyShrinksWork(t.heap, p.attempt.copies, p.phase.rest, e.action.page, e.action.offset, NUM_PAGES);
    } else {
      Termination.BumpShrinksWork(t.heap, p.attempt.copies, p.phase.rest, e.action.bumped, NUM_PAGES);
    }
  }

  /** Process `i` alone has run its next segment, `n` accesses long, from `s` to `u`. */
  predicate RanSegment(P: Program, s: State, u: State, i: nat, n: nat) {
    i < |s.procs| && |u.procs| == |s.procs| &&
    var p, q := s.procs[i], u.procs[i];
    var m := DirectRun(P, p.saved, s.heap, n);
    && u.mutex.Free? && u.heap == m.heap && u.log == s.log + [Commit(i, m.wrote)] && u.rollbacks == s.rollbacks
    && u.procs == s.procs[i := q]
    && q.phase.Synced? && q.attempt.ctx == m.ctx
    && q.parent == p.parent && q.predecessor == p.predecessor && q.handles == p.handles
    && u.reaped == (if AtSync(P, p.saved) then s.reaped else Collect(s, i, p.predecessor))
  }

  /** The segment ends and process `i` starts to wait. */
  lemma EndAlone(P: Program, b: Build, s: State, t: State, i: nat) returns (u: State)
    requires Inv(P, t) && ReachesBy(P, b, i, s, t) && Enabled(P, t, Event(i, EndSegment))
    ensures Inv(P, u) && ReachesBy(P, b, i, s, u)
    ensures u == Put(t, i, t.procs[i].(phase := AwaitingPredecessor))
  {
    ReachesByStep(P, b, i, s, t, Event(i, EndSegment));
    u := Apply(P, b, t, Event(i, EndSegment));
  }

  /** The wait for the predecessor ends. */
  lemma WaitAlone(P: Program, b: Build, s: State, t: State, i: nat) returns (u: State)
    requires Inv(P, t) && ReachesBy(P, b, i, s, t) && i < |t.procs| && t.procs[i].phase.AwaitingPredecessor?
    requires WaitOver(t, i, t.procs[i].predecessor)
    ensures Inv(P, u) && ReachesBy(P, b, i, s, u)
    ensures u == Put(t, i, t.procs[i].(phase := AwaitingMutex)).(reaped := Collect(t, i, t.procs[i].predecessor))
  {
    ReachesByStep(P, b, i, s, t, Event(i, PredecessorGone));
    u := Apply(P, b, t, Event(i, PredecessorGone));
  }

  /** Validation succeeds under current versions. */
  lemma ValidateAlone(P: Program, b: Build, s: State, t: State, i: nat) returns (u: State)
    requires Inv(P, t) && ReachesBy(P, b, i, s, t) && t.mutex.Free? && i < |t.procs| && t.procs[i].phase.AwaitingMutex?
    requires Current(t.procs[i].tracker.readSet, t.versions)
    ensures Inv(P, u) && ReachesBy(P, b, i, s, u) && Committing(u)
    ensures u == Put(t, i, t.procs[i].(phase := Installing(t.procs[i].tracker.writeSet.Keys)))
                   .(mutex := Held(i), log := t.log + [Commit(i, t.procs[i].tracker.writeSet.Keys)])
  {
    ReachesByStep(P, b, i, s, t, Event(i, Lock));
    u := Apply(P, b, t, Event(i, Lock));
    ReachesByStep(P, b, i, s, u, Event(i, Validate));
    u := Apply(P, b, u, Event(i, Validate));
  }

  lemma EmptyAlone(P: Program, b: Build, s: State, t: State, i: nat, n: nat) returns (u: State)
    requires Inv(P, t) && Underway(P, s, t, i, n) && ReachesBy(P, b, i, s, t) && s.mutex.Free?
    requires Enabled(P, t, Event(i, CommitEmpty)) && AtSync(P, s.procs[i].saved)
    ensures Inv(P, u) && ReachesBy(P, b, i, s, u) && RanSegment(P, s, u, i, n)
  {
    var p := t.procs[i];
    UndisturbedIsDirect(P, s.procs[i].saved, s.heap, n);
    assert ProcessOk(P, CommittedHeap(t), CommittedVersions(t), t.versions, p);
    ReachesByStep(P, b, i, s, t, Event(i, CommitEmpty));
    u := Apply(P, b, t, Event(i, CommitEmpty));
    assert p.attempt.copies.Keys == {};
    assert p.attempt.copies == map[] && Overlay(s.heap, map[]) == s.heap;
  }

  /** The attempt of process `i` in `t` has been committed in `u`. */
  predicate CommittedAlone(t: State, u: State, i: nat) {
    i < |t.procs| &&
    var p := t.procs[i];
    && u.mutex.Free? && u.heap == Overlay(t.heap, p.attempt.copies) && u.rollbacks == t.rollbacks
    && u.log == t.log + [Commit(i, p.tracker.writeSet.Keys)]
    && u.procs == t.procs[i := p.(phase := Synced, attempt := p.attempt.(copies := map[]))]
    && u.reaped == Collect(t, i, p.predecessor)
  }

  lemma WaitedAlone(P: Program, b: Build, s: State, t: State, i: nat) returns (v: State)
    requires Inv(P, t) && ReachesBy(P, b, i, s, t) && Enabled(P, t, Event(i, EndSegment))
    requires WaitOver(t, i, t.procs[i].predecessor)
    ensures Inv(P, v) && ReachesBy(P, b, i, s, v)
    ensures v == Put(t, i, t.procs[i].(phase := AwaitingMutex)).(reaped := Collect(t, i, t.procs[i].predecessor))
  {
    v := EndAlone(P, b, s, t, i);
    SameWait(t, i);
    v := WaitAlone(P, b, s, v, i);
  }

  lemma LockedAlone(P: Program, b: Build, s: State, t: State, i: nat) returns (v: State)
    requires Inv(P, t) && ReachesBy(P, b, i, s, t) && t.mutex.Free? && Enabled(P, t, Event(i, EndSegment))
    requires WaitOver(t, i, t.procs[i].predecessor) && Current(t.procs[i].tracker.readSet, t.versions)
    ensures Inv(P, v) && ReachesBy(P, b, i, s, v) && Committing(v)
    ensures v == Put(t, i, t.procs[i].(phase := Installing(t.procs[i].tracker.writeSet.Keys)))
                   .(mutex := Held(i), log := t.log + [Commit(i, t.procs[i].tracker.writeSet.Keys)],
                     reaped := Collect(t, i, t.procs[i].predecessor))
  {
    v := WaitedAlone(P, b, s, t, i);
    v := ValidateAlone(P, b, s, v, i);
  }

  /** A process that begins to wait waits for the same process as before. */
  lemma SameWait(t: State, i: nat)
    requires i < |t.procs| && !t.procs[i].phase.Exited?
    ensures var u := Put(t, i, t.procs[i].(phase := AwaitingPredecessor));
            var x := t.procs[i].predecessor;
            u.procs[i].predecessor == x && Collect(u, i, x) == Collect(t, i, x) && (WaitOver(t, i, x) ==> WaitOver(u, i, x))
  {
  }

  lemma CommitSteps(P: Program, b: Build, s: State, t: State, i: nat) returns (u: State)
    requires Inv(P, t) && ReachesBy(P, b, i, s, t) && t.mutex.Free? && Enabled(P, t, Event(i, EndSegment))
    requires WaitOver(t, i, t.procs[i].predecessor) && Current(t.procs[i].tracker.readSet, t.versions)
    ensures Inv(P, u) && ReachesBy(P, b, i, s, u) && CommittedAlone(t, u, i)
  {
    var v := LockedAlone(P, b, s, t, i);
    u := InstallAlone(P, b, s, v, i);
    assert CommittedHeap(v) == Overlay(t.heap, t.procs[i].attempt.copies);
  }

  lemma CommitAlone(P: Program, b: Build, s: State, t: State, i: nat, n: nat) returns (u: State)
    requires Inv(P, t) && Underway(P, s, t, i, n) && ReachesBy(P, b, i, s, t) && s.mutex.Free?
    requires Enabled(P, t, Event(i, EndSegment)) && WaitOver(s, i, s.procs[i].predecessor) && s.procs[i].phase.Beginning?
    requires !AtSync(P, s.procs[i].saved)
    ensures Inv(P, u) && ReachesBy(P, b, i, s, u) && RanSegment(P, s, u, i, n)
  {
    var p := t.procs[i];
    assert p.attempt.copies.Keys == p.tracker.writeSet.Keys && Current(p.tracker.readSet, t.versions) by {
      assert ProcessOk(P, CommittedHeap(t), CommittedVersions(t), t.versions, p);
    }
    UnderwayWaits(P, s, t, i, n);
    u := CommitSteps(P, b, s, t, i);
    UndisturbedIsDirect(P, s.procs[i].saved, s.heap, n);
  }

  lemma UnderwayWaits(P: Program, s: State, t: State, i: nat, n: nat)
    requires Underway(P, s, t, i, n) && s.procs[i].phase.Beginning?
    ensures var x := s.procs[i].predecessor;
            Collect(t, i, x) == Collect(s, i, x) && (WaitOver(s, i, x) ==> WaitOver(t, i, x))
  {
  }

  lemma SegmentAlone(P: Program, b: Build, s: State, i: nat, n: nat) returns (u: State)
    requires Inv(P, s) && i < |s.procs| && s.procs[i].phase.Beginning? && s.mutex.Free?
    requires AtSync(P, DirectRun(P, s.procs[i].saved, s.heap, n).ctx)
    requires AtSync(P, s.procs[i].saved) || WaitOver(s, i, s.procs[i].predecessor)
    ensures Inv(P, u) && ReachesBy(P, b, i, s, u) && RanSegment(P, s, u, i, n)
  {
    var t := AccessesAlone(P, b, s, i, n);
    UndisturbedIsDirect(P, s.procs[i].saved, s.heap, n);
    if AtSync(P, s.procs[i].saved) {
      NoAccessTouchesNothing(P, s.procs[i].saved, s.heap, n);
      UntouchedIsEmpty(P, t, i);
      u := EmptyAlone(P, b, s, t, i, n);
    } else {
      FirstAccessTouches(P, s.procs[i].saved, s.heap, n);
      assert t.procs[i].tracker.readSet != map[] by {
        assert ProcessOk(P, CommittedHeap(t), CommittedVersions(t), t.versions, t.procs[i]);
      }
      u := CommitAlone(P, b, s, t, i, n);
    }
  }

  lemma {:induction false} FirstAccessTouches(P: Program, c: Context, h: Heap, n: nat)
    requires !AtSync(P, c) && n > 0
    ensures Undisturbed(P, c, h, n).touched != {}
  {
    if n == 1 {
      assert Undisturbed(P, c, h, 0) == Start(c);
    } else {
      FirstAccessTouches(P, c, h, n - 1);
    }
  }

  lemma UntouchedIsEmpty(P: Program, t: State, i: nat)
    requires Inv(P, t) && i < |t.procs| && t.procs[i].phase.Running? && !IsAccess(Next(P, t.procs[i]))
    requires t.procs[i].attempt.touched == {}
    ensures t.procs[i].tracker.readSet == map[] && t.procs[i].tracker.writeSet == map[]
  {
    var k := t.procs[i].tracker;
    assert ProcessOk(P, CommittedHeap(t), CommittedVersions(t), t.versions, t.procs[i]);
    assert k.readSet.Keys == {} && k.writeSet.Keys == {};
  }

  lemma {:induction false} NoAccessTouchesNothing(P: Program, c: Context, h: Heap, n: nat)
    requires AtSync(P, c)
    ensures Undisturbed(P, c, h, n) == Start(c)
  {
    if n > 0 {
      NoAccessTouchesNothing(P, c, h, n - 1);
    }
  }

  // ---- whole executions ----

  /** Every process is between segments. */
  predicate Resting(s: State) {
    s.mutex.Free? &&
    forall i :: 0 <= i < |s.procs| ==>
      s.procs[i].phase.Beginning? || s.procs[i].phase.Synced? || s.procs[i].phase.Exited?
  }

  /** Whom a turn waits for; 0 for nobody. */
  function Awaited(P: Program, w: World, u: Turn): nat {
    if u.pid >= |w.threads| then 0
    else
      var d := w.threads[u.pid];
      if u.move.Segment? && !AtSync(P, d.ctx) then d.predecessor
      else if u.move.Joined? && P.next(d.ctx).Join? && P.next(d.ctx).handle < |d.handles| then d.handles[P.next(d.ctx).handle]
      else 0
  }

  function NewlyCollected(P: Program, w: World, u: Turn): set<nat> {
    var t := Awaited(P, w, u);
    if 0 < t < |w.threads| && w.threads[t].parent == u.pid then {t} else {}
  }

  /** The threads that the turns have waited for as their parents, which reaps their processes. */
  function Collected(P: Program, b: Build, w: World, turns: seq<Turn>): set<nat> {
    if turns == [] then {}
    else
      var before := turns[..|turns| - 1];
      Collected(P, b, w, before) + NewlyCollected(P, PlayAll(P, b, w, before), turns[|turns| - 1])
  }

  /** Thread `i` can stop waiting for `t`: it has finished, and is a child of `i` or forgotten. */
  predicate WaitEnds(w: World, collected: set<nat>, i: nat, t: nat) {
    t == 0 ||
    (HasFinished(w, t) &&
     (w.threads[t].parent == i || t in collected || HasFinished(w, w.threads[t].parent)))
  }

  predicate WaitsEndThroughout(P: Program, b: Build, w: World, turns: seq<Turn>) {
    turns != [] ==>
      var before, u := turns[..|turns| - 1], turns[|turns| - 1];
      WaitsEndThroughout(P, b, w, before) &&
      WaitEnds(PlayAll(P, b, w, before), Collected(P, b, w, before), u.pid, Awaited(P, PlayAll(P, b, w, before), u))
  }

  lemma WaitIsOver(s: State, w: World, collected: set<nat>, i: nat, t: nat)
    requires Matches(s, w) && WaitEnds(w, collected, i, t) && collected <= s.reaped
    ensures WaitOver(s, i, t)
  {
    if t != 0 {
      var p := w.threads[t].parent;
      assert Shows(s.procs[t], w.threads[t]);
      assert p < |w.threads| ==> Shows(s.procs[p], w.threads[p]);
    }
  }

  lemma NewlyReaped(P: Program, s: State, w: World, u: Turn)
    requires Matches(s, w) && u.pid < |s.procs|
    ensures Collect(s, u.pid, Awaited(P, w, u)) == s.reaped + NewlyCollected(P, w, u)
  {
    var t := Awaited(P, w, u);
    assert t < |w.threads| ==> Shows(s.procs[t], w.threads[t]);
  }

  lemma RealizeSegment(P: Program, b: Build, s: State, w: World, collected: set<nat>, u: Turn) returns (s': State)
    requires Inv(P, s) && Resting(s) && Matches(s, w) && Possible(P, w, u) && u.move.Segment?
    requires WaitEnds(w, collected, u.pid, Awaited(P, w, u)) && collected <= s.reaped
    ensures Inv(P, s') && Resting(s') && Reaches(P, b, s, s') && Matches(s', Play(P, b, w, u))
    ensures s'.rollbacks == s.rollbacks && s'.reaped == s.reaped + NewlyCollected(P, w, u)
  {
    var d := w.threads[u.pid];
    assert Shows(s.procs[u.pid], d);
    WaitIsOver(s, w, collected, u.pid, Awaited(P, w, u));
    NewlyReaped(P, s, w, u);
    s' := SegmentAlone(P, b, s, u.pid, u.move.accesses);
    forall j | 0 <= j < |s'.procs| ensures Shows(s'.procs[j], Play(P, b, w, u).threads[j]) {
      assert Shows(s.procs[j], w.threads[j]);
    }
  }

  lemma RealizeSync(P: Program, b: Build, s: State, w: World, collected: set<nat>, u: Turn) returns (s': State)
    requires Inv(P, s) && Resting(s) && Matches(s, w) && Possible(P, w, u) && !u.move.Segment?
    requires WaitEnds(w, collected, u.pid, Awaited(P, w, u)) && collected <= s.reaped
    ensures Inv(P, s') && Resting(s') && Reaches(P, b, s, s') && Matches(s', Play(P, b, w, u))
    ensures s'.rollbacks == s.rollbacks && s'.reaped == s.reaped + NewlyCollected(P, w, u)
  {
    var i := u.pid;
    var d := w.threads[i];
    assert Shows(s.procs[i], d);
    WaitIsOver(s, w, collected, i, Awaited(P, w, u));
    NewlyReaped(P, s, w, u);
    var e := Event(i, match u.move case Spawn => Fork case Joined => JoinDone case _ => Leave);
    ReachesSelf(P, b, s);
    ReachesStep(P, b, s, s, e);
    if u.move.Spawn? {
      ForkSimulated(P, b, s, w, i);
    } else {
      JoinOrLeaveSimulated(P, b, s, w, e);
    }
    s' := Apply(P, b, s, e);
  }

  /** Every feasible serial execution whose waits can end is a run of the runtime that never rolls back. */
  lemma {:induction false} SerialIsRealizable(P: Program, b: Build, c: Context, h: Heap, turns: seq<Turn>)
      returns (s: State)
    requires Feasible(P, b, Origin(c, h), turns) && WaitsEndThroughout(P, b, Origin(c, h), turns)
    ensures Inv(P, s) && Resting(s) && Reaches(P, b, Initial(c, h), s)
    ensures Matches(s, PlayAll(P, b, Origin(c, h), turns)) && s.rollbacks == 0
    ensures s.reaped == Collected(P, b, Origin(c, h), turns)
  {
    if turns == [] {
      s := Initial(c, h);
      InitialOk(P, c, h);
      ReachesSelf(P, b, s);
    } else {
      var before, u := turns[..|turns| - 1], turns[|turns| - 1];
      var t := SerialIsRealizable(P, b, c, h, before);
      var w := PlayAll(P, b, Origin(c, h), before);
      var collected := Collected(P, b, Origin(c, h), before);
      if u.move.Segment? {
        s := RealizeSegment(P, b, t, w, collected, u);
      } else {
        s := RealizeSync(P, b, t, w, collected, u);
      }
      ReachesOn(P, b, Initial(c, h), t, s);
    }
  }
}
