/** With NO_ORDER undefined: exactly what can hold a run up. */
module OrderedProgress {
  import opened Memory
  import opened Segments
  import opened Protocol
  import opened Invariant
  import opened Serial
  import opened Refinement
  import opened OrderedMode
  import Deadlock

  // ---- children come before their parents ----

  predicate ChildFirst(w: World, a: nat, b: nat) {
    a < |w.order| && b < |w.order| && 0 < w.order[a] < |w.threads| && w.threads[w.order[a]].parent == w.order[b] ==> a < b
  }

  predicate ChildrenFirst(w: World) {
    && (forall i :: 0 <= i < |w.threads| ==> w.threads[i].parent < |w.threads|)
    && (forall a, b :: 0 <= a < |w.order| && 0 <= b < |w.order| ==> ChildFirst(w, a, b))
  }

  lemma SpawnKeepsPair(P: Program, w: World, i: nat, k: nat, a: nat, b: nat)
    requires Linked(w) && ChildrenFirst(w) && i < |w.threads| && P.next(w.threads[i].ctx).Create?
    requires k < |w.order| && w.order[k] == i
    requires Spawned(P, Ordered, w, i).order == w.order[..k] + [|w.threads|] + w.order[k..]
    ensures ChildFirst(Spawned(P, Ordered, w, i), a, b)
  {
    var w' := Spawned(P, Ordered, w, i);
    if a <= |w.order| && b <= |w.order| && 0 < w'.order[a] < |w'.threads| && w'.threads[w'.order[a]].parent == w'.order[b] {
      if a == k {
        InsertKeepsListing(w.order, k, |w.threads|);
        assert w'.order[k + 1] == i;
      } else {
        var c, d := if a < k then a else a - 1, if b < k then b else b - 1;
        assert w'.order[a] == w.order[c] && w'.threads[w.order[c]].parent == w.threads[w.order[c]].parent;
        assert b != k;
        assert ChildFirst(w, c, d);
      }
    }
  }

  lemma SpawnKeepsChildrenFirst(P: Program, w: World, i: nat)
    requires Linked(w) && ChildrenFirst(w) && i < |w.threads| && P.next(w.threads[i].ctx).Create?
    ensures ChildrenFirst(Spawned(P, Ordered, w, i))
  {
    var w' := Spawned(P, Ordered, w, i);
    assert i in w.order;
    var k := InsertShape(w.order, i, |w.threads|);
    forall a, b | 0 <= a < |w'.order| && 0 <= b < |w'.order| ensures ChildFirst(w', a, b) {
      SpawnKeepsPair(P, w, i, k, a, b);
    }
  }

  lemma TakeKeepsChildrenFirst(P: Program, w: World, u: Turn)
    requires Linked(w) && ChildrenFirst(w)
    ensures ChildrenFirst(Take(P, Ordered, w, u))
  {
    if Possible(P, w, u) {
      if u.move.Spawn? {
        SpawnKeepsChildrenFirst(P, w, u.pid);
      } else {
        var w' := Play(P, Ordered, w, u);
        forall a, b | 0 <= a < |w.order| && 0 <= b < |w.order| ensures ChildFirst(w', a, b) {
          assert ChildFirst(w, a, b);
        }
      }
    }
  }

  lemma {:induction false} PlaysListChildrenFirst(P: Program, c: Context, h: Heap, turns: seq<Turn>)
    ensures ChildrenFirst(PlayAll(P, Ordered, Origin(c, h), turns))
  {
    if turns != [] {
      PlaysListChildrenFirst(P, c, h, turns[..|turns| - 1]);
      PlaysAreLinked(P, c, h, turns[..|turns| - 1]);
      TakeKeepsChildrenFirst(P, PlayAll(P, Ordered, Origin(c, h), turns[..|turns| - 1]), turns[|turns| - 1]);
    }
  }

  // ---- the first live process in the elided order ----

  /** Process `i` is the first live one of `order`. */
  predicate FirstLive(s: State, order: seq<nat>, i: nat) {
    i in order && i < |s.procs| && !s.procs[i].phase.Exited? &&
    exists k :: 0 <= k < |order| && order[k] == i && forall j :: 0 <= j < k ==> HasExited(s, order[j])
  }

  lemma {:induction false} SomebodyIsFirst(s: State, order: seq<nat>, n: nat) returns (i: nat)
    requires n < |order| && order[n] < |s.procs| && !s.procs[order[n]].phase.Exited?
    requires forall j :: 0 <= j < |order| ==> order[j] < |s.procs|
    ensures FirstLive(s, order, i)
  {
    if j :| 0 <= j < n && !s.procs[order[j]].phase.Exited? {
      i := SomebodyIsFirst(s, order, j);
    } else {
      i := order[n];
    }
  }

  /** Process `i` is in the loop on `kill(t, 0)`: its predecessor has exited, is not its child, and the
      parent, which is alive, has not reaped it. */
  predicate InKillLoop(s: State, i: nat) {
    i < |s.procs| && s.procs[i].phase.AwaitingPredecessor? &&
    var t := s.procs[i].predecessor;
    t != 0 && HasExited(s, t) && s.procs[t].parent != i && t !in s.reaped && !HasExited(s, s.procs[t].parent)
  }

  /** For the first live process all waits but that one are over. */
  lemma FirstNeedNotWait(P: Program, c: Context, h: Heap, schedule: Schedule, i: nat)
    requires var s := Run(P, Ordered, Initial(c, h), schedule);
             Deadlock.JoinsOwnChildren(P, s) && FirstLive(s, ElidedOrder(P, c, h, schedule), i)
    ensures var s := Run(P, Ordered, Initial(c, h), schedule);
            Deadlock.NotWaiting(P, s, i) <==> !InKillLoop(s, i)
  {
    var s, order := Run(P, Ordered, Initial(c, h), schedule), ElidedOrder(P, c, h, schedule);
    var turns := Images(P, Ordered, Initial(c, h), schedule);
    var w := PlayAll(P, Ordered, Origin(c, h), turns);
    Serializable(P, Ordered, c, h, schedule);
    PlaysAreLinked(P, c, h, turns);
    PlaysListChildrenFirst(P, c, h, turns);
    var k :| 0 <= k < |order| && order[k] == i && forall j :: 0 <= j < k ==> HasExited(s, order[j]);
    FirstPredecessorGone(s, w, k);
    if s.procs[i].phase.Synced? && Next(P, s.procs[i]).Join? {
      FirstChildGone(s, w, k, s.procs[i].handles[Next(P, s.procs[i]).handle]);
    }
  }

  lemma FirstPredecessorGone(s: State, w: World, k: nat)
    requires Matches(s, w) && Linked(w) && k < |w.order| && forall j :: 0 <= j < k ==> HasExited(s, w.order[j])
    ensures var t := s.procs[w.order[k]].predecessor; t == 0 || HasExited(s, t)
  {
    assert FollowsPredecessor(w, k) && Shows(s.procs[w.order[k]], w.threads[w.order[k]]);
  }

  lemma FirstChildGone(s: State, w: World, k: nat, t: nat)
    requires Matches(s, w) && Linked(w) && ChildrenFirst(w)
    requires k < |w.order| && forall j :: 0 <= j < k ==> HasExited(s, w.order[j])
    requires t < |s.procs| && s.procs[t].parent == w.order[k]
    ensures t == 0 || HasExited(s, t)
  {
    if t != 0 {
      assert Shows(s.procs[t], w.threads[t]) && t in w.order;
      var a :| 0 <= a < |w.order| && w.order[a] == t;
      assert ChildFirst(w, a, k);
    }
  }

  lemma LoopHoldsUp(P: Program, s: State, e: Event)
    requires InKillLoop(s, e.pid)
    ensures !Enabled(P, s, e)
  {
  }

  lemma {:induction false} StepsUnlessWaiting(P: Program, s: State, i: nat)
    requires Inv(P, s) && s.mutex.Free? && i < |s.procs| && !s.procs[i].phase.Exited?
    requires Deadlock.NotWaiting(P, s, i) <==> !InKillLoop(s, i)
    ensures (exists e :: Enabled(P, s, e) && e.pid == i) <==> !InKillLoop(s, i)
  {
    if InKillLoop(s, i) {
      forall e: Event | e.pid == i ensures !Enabled(P, s, e) {
        LoopHoldsUp(P, s, e);
      }
    } else {
      var e := Deadlock.CanStep(P, s, i);
    }
  }

  /** Exactly one thing holds the first live process up while the mutex is free: waiting for the parent
      of its predecessor to reap it. */
  lemma {:induction false} FirstStepsUnlessInKillLoop(P: Program, c: Context, h: Heap, schedule: Schedule, i: nat)
    requires var s := Run(P, Ordered, Initial(c, h), schedule);
             Deadlock.JoinsOwnChildren(P, s) && s.mutex.Free? && FirstLive(s, ElidedOrder(P, c, h, schedule), i)
    ensures var s := Run(P, Ordered, Initial(c, h), schedule);
            (exists e :: Enabled(P, s, e) && e.pid == i) <==> !InKillLoop(s, i)
  {
    InitialOk(P, c, h);
    RunKeeps(P, Ordered, Initial(c, h), schedule);
    FirstNeedNotWait(P, c, h, schedule, i);
    StepsUnlessWaiting(P, Run(P, Ordered, Initial(c, h), schedule), i);
  }

  /** No deadlock in an ordered build either, except through that loop: in every reachable state with a
      live process some process can step, unless the mutex is free and the first live process is in it. */
  lemma {:induction false} OrderedProgress(P: Program, c: Context, h: Heap, schedule: Schedule)
    requires var s := Run(P, Ordered, Initial(c, h), schedule);
             Deadlock.JoinsOwnChildren(P, s) && (exists j :: 0 <= j < |s.procs| && !s.procs[j].phase.Exited?)
    ensures var s := Run(P, Ordered, Initial(c, h), schedule);
            (exists e :: Enabled(P, s, e)) ||
            (s.mutex.Free? && exists i :: FirstLive(s, ElidedOrder(P, c, h, schedule), i) && InKillLoop(s, i))
  {
    var s, order := Run(P, Ordered, Initial(c, h), schedule), ElidedOrder(P, c, h, schedule);
    InitialOk(P, c, h);
    RunKeeps(P, Ordered, Initial(c, h), schedule);
    if s.mutex.Held? {
      var e := Deadlock.HolderCanStep(P, s);
    } else {
      OrderIsKeptExactly(P, c, h, schedule);
      var j :| 0 <= j < |s.procs| && !s.procs[j].phase.Exited?;
      assert j in order;
      var n :| 0 <= n < |order| && order[n] == j;
      assert forall m :: 0 <= m < |order| ==> order[m] in order;
      var i := SomebodyIsFirst(s, order, n);
      FirstStepsUnlessInKillLoop(P, c, h, schedule, i);
    }
  }
}
