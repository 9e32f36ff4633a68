/** Who waits for whom, and when a process has been reaped. */
module Reaping {
  import opened Memory
  import opened Segments
  import opened Tracking
  import opened Protocol
  import opened Invariant

  predicate Untracked(k: Tracker) {
    k.readSet == map[] && k.writeSet == map[]
  }

  /** An attempt that has recorded anything began with an access, so every retry of it does too. */
  predicate BeginsOk(P: Program, p: Process) {
    && (p.phase.Running? && Untracked(p.tracker) ==> p.attempt.ctx == p.saved)
    && (Attempting(p.phase) && !(p.phase.Running? && Untracked(p.tracker)) ==> IsAccess(P.next(p.saved)))
  }

  predicate References(p: Process, t: nat) {
    p.predecessor == t || t in p.handles
  }

  predicate KnowsPids(p: Process, n: nat) {
    p.parent < n && p.predecessor < n && forall t :: t in p.handles ==> t < n
  }

  /** The predecessor of `i` is its own child, which makes it the latest one. */
  predicate AwaitsChild(s: State, i: nat) {
    i < |s.procs| && 0 < s.procs[i].predecessor < |s.procs| && s.procs[s.procs[i].predecessor].parent == i
  }

  /** Nobody else can wait for such a child yet. */
  predicate SoleWaiter(s: State, i: nat, j: nat) {
    i < |s.procs| && j < |s.procs| && i != j && AwaitsChild(s, i) ==>
      !References(s.procs[j], s.procs[i].predecessor)
  }

  predicate WaitersOk(P: Program, s: State) {
    && (forall i :: 0 <= i < |s.procs| ==> BeginsOk(P, s.procs[i]) && KnowsPids(s.procs[i], |s.procs|))
    && (forall i, j :: 0 <= i < |s.procs| && 0 <= j < |s.procs| ==> SoleWaiter(s, i, j))
  }

  lemma OwnBeginningKept(P: Program, b: Build, s: State, e: Event)
    requires Enabled(P, s, e) && BeginsOk(P, s.procs[e.pid])
    requires s.procs[e.pid].phase.Beginning? ==> s.procs[e.pid].attempt == Start(s.procs[e.pid].saved)
    ensures BeginsOk(P, Apply(P, b, s, e).procs[e.pid])
  {
  }

  lemma ForkKeepsWaiters(P: Program, b: Build, s: State, i: nat)
    requires WaitersOk(P, s) && Enabled(P, s, Event(i, Fork))
    ensures WaitersOk(P, Apply(P, b, s, Event(i, Fork)))
  {
    var s' := Forked(P, b, s, i);
    var p, n := s.procs[i], |s.procs|;
    var parent', child := s'.procs[i], s'.procs[n];
    assert KnowsPids(p, n);
    assert forall t :: References(parent', t) ==> t == n || References(p, t);
    assert forall t :: References(child, t) ==> t == 0 || References(p, t);
    forall j | 0 <= j <= n ensures BeginsOk(P, s'.procs[j]) && KnowsPids(s'.procs[j], n + 1) {
      assert j < n ==> BeginsOk(P, s.procs[j]) && KnowsPids(s.procs[j], n);
    }
    forall j, k | 0 <= j <= n && 0 <= k <= n ensures SoleWaiter(s', j, k) {
      assert j == n ==> !AwaitsChild(s', j) by {
        assert KnowsPids(s.procs[child.predecessor], n);
      }
      if j != k && AwaitsChild(s', j) {
        if j == i {
          assert k < n ==> KnowsPids(s.procs[k], n);
        } else {
          assert KnowsPids(s.procs[j], n);
          assert SoleWaiter(s, j, i) && (k < n ==> SoleWaiter(s, j, k));
        }
      }
    }
  }

  lemma StepKeepsWaiters(P: Program, b: Build, s: State, e: Event)
    requires Inv(P, s) && WaitersOk(P, s)
    ensures WaitersOk(P, Step(P, b, s, e))
  {
    if Enabled(P, s, e) {
      if e.action.Fork? {
        ForkKeepsWaiters(P, b, s, e.pid);
      } else {
        var s' := Apply(P, b, s, e);
        assert ProcessOk(P, CommittedHeap(s), CommittedVersions(s), s.versions, s.procs[e.pid]);
        OwnBeginningKept(P, b, s, e);
        SameRelations(P, b, s, e);
        forall j | 0 <= j < |s.procs| ensures BeginsOk(P, s'.procs[j]) && KnowsPids(s'.procs[j], |s.procs|) {
          assert BeginsOk(P, s.procs[j]) && KnowsPids(s.procs[j], |s.procs|);
        }
        forall j, k | 0 <= j < |s.procs| && 0 <= k < |s.procs| ensures SoleWaiter(s', j, k) {
          assert SoleWaiter(s, j, k);
        }
      }
    }
  }

  /** Only a fork changes who is related to whom. */
  lemma SameRelations(P: Program, b: Build, s: State, e: Event)
    requires Enabled(P, s, e) && !e.action.Fork?
    ensures var s' := Apply(P, b, s, e);
            |s'.procs| == |s.procs| &&
            (forall j :: 0 <= j < |s.procs| && j != e.pid ==> s'.procs[j] == s.procs[j]) &&
            s'.procs[e.pid].parent == s.procs[e.pid].parent &&
            s'.procs[e.pid].predecessor == s.procs[e.pid].predecessor &&
            s'.procs[e.pid].handles == s.procs[e.pid].handles
  {
  }

  lemma {:induction false} RunKeepsWaiters(P: Program, b: Build, c: Context, h: Heap, schedule: Schedule)
    ensures Inv(P, Run(P, b, Initial(c, h), schedule)) && WaitersOk(P, Run(P, b, Initial(c, h), schedule))
  {
    InitialOk(P, c, h);
    if schedule != [] {
      var before := schedule[..|schedule| - 1];
      RunKeepsWaiters(P, b, c, h, before);
      StepKeeps(P, b, Run(P, b, Initial(c, h), before), schedule[|schedule| - 1]);
      StepKeepsWaiters(P, b, Run(P, b, Initial(c, h), before), schedule[|schedule| - 1]);
    }
  }
}
