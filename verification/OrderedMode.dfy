/** With NO_ORDER undefined: when the commits follow the order of the elided program. */
module OrderedMode {
  import opened Memory
  import opened Segments
  import opened Protocol
  import opened Invariant
  import opened Serial
  import opened Refinement
  import opened Sequential

  // ---- the depth-first order ----

  lemma {:induction false} InsertShape(order: seq<nat>, i: nat, child: nat) returns (k: nat)
    requires i in order
    ensures k < |order| && order[k] == i && InsertBefore(order, i, child) == order[..k] + [child] + order[k..]
  {
    if order[0] == i {
      k := 0;
    } else {
      k := InsertShape(order[1..], i, child);
      k := k + 1;
      assert order[..k] == [order[0]] + order[1..][..k - 1];
    }
  }

  predicate Distinct(order: seq<nat>) {
    forall j, k :: 0 <= j < k < |order| ==> order[j] != order[k]
  }

  /** The predecessor of the `k`-th thread listed is the one listed just before it. */
  predicate FollowsPredecessor(w: World, k: nat) {
    k < |w.order| && w.order[k] < |w.threads| &&
    w.threads[w.order[k]].predecessor == (if k == 0 then 0 else w.order[k - 1])
  }

  /** `order` lists every thread once, the root last. */
  predicate Lists(order: seq<nat>, n: nat) {
    && (forall k :: 0 <= k < |order| ==> order[k] < n)
    && (forall i :: 0 <= i < n ==> i in order)
    && Distinct(order)
    && order != [] && order[|order| - 1] == 0
  }

  /** The predecessor of each thread is the one listed just before it. */
  predicate Linked(w: World) {
    Lists(w.order, |w.threads|) && forall k :: 0 <= k < |w.order| ==> FollowsPredecessor(w, k)
  }

  predicate FinishedOrNone(w: World, i: nat) {
    i == 0 || HasFinished(w, i)
  }

  /** Every thread but the root that has left did so after its predecessor. */
  predicate LeftInOrder(w: World) {
    forall i :: 0 < i < |w.threads| && w.threads[i].stage.Gone? ==> FinishedOrNone(w, w.threads[i].predecessor)
  }

  predicate OrderOk(w: World) {
    Linked(w) && LeftInOrder(w)
  }

  /** No thread of the execution leaves before its predecessor. */
  predicate Disciplined(P: Program, w: World, turns: seq<Turn>) {
    LeftInOrder(PlayAll(P, Ordered, w, turns)) &&
    (turns != [] ==> Disciplined(P, w, turns[..|turns| - 1]))
  }

  lemma InsertKeepsListing(order: seq<nat>, k: nat, pid: nat)
    requires k < |order| && Lists(order, pid)
    ensures Lists(order[..k] + [pid] + order[k..], pid + 1)
  {
    var order' := order[..k] + [pid] + order[k..];
    assert order == order[..k] + order[k..];
    forall i | 0 <= i <= pid ensures i in order' {
      assert i < pid ==> i in order;
    }
    InsertKeepsDistinct(order, k, pid);
  }

  lemma InsertKeepsDistinct(order: seq<nat>, k: nat, pid: nat)
    requires k < |order| && Distinct(order) && forall m :: 0 <= m < |order| ==> order[m] < pid
    ensures Distinct(order[..k] + [pid] + order[k..])
  {
    var order' := order[..k] + [pid] + order[k..];
    assert forall m :: 0 <= m < |order'| ==> order'[m] == if m < k then order[m] else if m == k then pid else order[m - 1];
  }

  lemma SpawnKeepsLinks(P: Program, w: World, i: nat)
    requires Linked(w) && i < |w.threads| && P.next(w.threads[i].ctx).Create?
    ensures Linked(Spawned(P, Ordered, w, i))
  {
    assert i in w.order;
    var k := InsertShape(w.order, i, |w.threads|);
    InsertKeepsListing(w.order, k, |w.threads|);
    SpawnKeepsPredecessors(P, w, i, k);
  }

  lemma SpawnKeepsPredecessors(P: Program, w: World, i: nat, k: nat)
    requires Linked(w) && i < |w.threads| && P.next(w.threads[i].ctx).Create? && k < |w.order| && w.order[k] == i
    requires Spawned(P, Ordered, w, i).order == w.order[..k] + [|w.threads|] + w.order[k..]
    ensures var w' := Spawned(P, Ordered, w, i);
            forall m :: 0 <= m < |w'.order| ==> FollowsPredecessor(w', m)
  {
    var w' := Spawned(P, Ordered, w, i);
    forall m | 0 <= m < |w'.order| ensures FollowsPredecessor(w', m) {
      var was := if m <= k then m else m - 1;
      assert FollowsPredecessor(w, was);
      assert m != k ==> w'.order[m] == w.order[was];
      assert was != k ==> w.order[was] != i;
    }
  }

  lemma TakeKeepsLinks(P: Program, w: World, u: Turn)
    requires Linked(w)
    ensures Linked(Take(P, Ordered, w, u))
  {
    if Possible(P, w, u) {
      var w' := Take(P, Ordered, w, u);
      if u.move.Spawn? {
        SpawnKeepsLinks(P, w, u.pid);
      } else {
        forall k | 0 <= k < |w.order| ensures FollowsPredecessor(w', k) {
          assert FollowsPredecessor(w, k);
        }
      }
    }
  }

  lemma {:induction false} PlaysAreLinked(P: Program, c: Context, h: Heap, turns: seq<Turn>)
    ensures Linked(PlayAll(P, Ordered, Origin(c, h), turns))
  {
    if turns == [] {
      var w := Origin(c, h);
      assert w.order[0] == 0 && 0 in w.order;
    } else {
      PlaysAreLinked(P, c, h, turns[..|turns| - 1]);
      TakeKeepsLinks(P, PlayAll(P, Ordered, Origin(c, h), turns[..|turns| - 1]), turns[|turns| - 1]);
    }
  }

  // ---- when the commits follow that order ----

  predicate AllBefore(w: World, k: nat) {
    forall j :: 0 <= j < k && j < |w.order| ==> HasFinished(w, w.order[j])
  }

  /** Everybody listed before a thread whose predecessor has finished has finished too. */
  predicate PredecessorsSuffice(w: World) {
    forall k :: 0 <= k < |w.order| && w.order[k] < |w.threads| && FinishedOrNone(w, w.threads[w.order[k]].predecessor)
                ==> AllBefore(w, k)
  }

  lemma {:induction false} AllBeforeFinished(w: World, k: nat)
    requires OrderOk(w) && k < |w.order| && FinishedOrNone(w, w.threads[w.order[k]].predecessor)
    ensures AllBefore(w, k)
  {
    assert FollowsPredecessor(w, k);
    if k > 0 {
      assert FollowsPredecessor(w, k - 1);
      assert w.order[k - 1] != w.order[|w.order| - 1];
      AllBeforeFinished(w, k - 1);
    }
  }

  /** The exact condition: waiting for the immediate predecessor amounts to waiting for everybody whom
      the elided program would finish first if and only if no thread has left before its own. */
  lemma {:induction false} OrderIsExact(w: World)
    requires Linked(w)
    ensures PredecessorsSuffice(w) <==> LeftInOrder(w)
  {
    if LeftInOrder(w) {
      forall k | 0 <= k < |w.order| && FinishedOrNone(w, w.threads[w.order[k]].predecessor) ensures AllBefore(w, k) {
        AllBeforeFinished(w, k);
      }
    }
    if PredecessorsSuffice(w) {
      forall i | 0 < i < |w.threads| && w.threads[i].stage.Gone? ensures FinishedOrNone(w, w.threads[i].predecessor) {
        assert i in w.order;
        var k :| 0 <= k < |w.order| && w.order[k] == i;
        assert k + 1 < |w.order| && FollowsPredecessor(w, k + 1) && FollowsPredecessor(w, k);
        assert AllBefore(w, k + 1);
      }
    }
  }

  /** A segment that touches the heap runs only when every thread that the elided program would
      finish first has finished. */
  lemma SegmentsInOrder(P: Program, w: World, i: nat, n: nat) returns (k: nat)
    requires OrderOk(w) && Possible(P, w, Turn(i, Segment(n))) && !AtSync(P, w.threads[i].ctx)
    ensures k < |w.order| && w.order[k] == i && AllBefore(w, k)
  {
    assert i in w.order;
    k :| 0 <= k < |w.order| && w.order[k] == i;
    AllBeforeFinished(w, k);
  }

  // ---- a check that each thread can make by itself ----

  /** A thread leaves only if, since it started or last forked, it has touched the heap or joined its
      predecessor, which after a fork is its latest child. */
  predicate LeavesAfterWaiting(w: World, u: Turn) {
    u.move.Finish? && u.pid < |w.threads| ==> w.threads[u.pid].waited || w.threads[u.pid].predecessor == 0
  }

  predicate WaitsBeforeLeaving(P: Program, w: World, turns: seq<Turn>) {
    turns != [] ==>
      WaitsBeforeLeaving(P, w, turns[..|turns| - 1]) &&
      LeavesAfterWaiting(PlayAll(P, Ordered, w, turns[..|turns| - 1]), turns[|turns| - 1])
  }

  predicate WaitedForPredecessor(w: World) {
    forall i :: 0 <= i < |w.threads| && w.threads[i].waited ==> FinishedOrNone(w, w.threads[i].predecessor)
  }

  lemma {:induction false} WaitingSuffices(P: Program, c: Context, h: Heap, turns: seq<Turn>)
    requires WaitsBeforeLeaving(P, Origin(c, h), turns)
    ensures Disciplined(P, Origin(c, h), turns)
    ensures WaitedForPredecessor(PlayAll(P, Ordered, Origin(c, h), turns))
  {
    if turns != [] {
      WaitingSuffices(P, c, h, turns[..|turns| - 1]);
      var w, u := PlayAll(P, Ordered, Origin(c, h), turns[..|turns| - 1]), turns[|turns| - 1];
      if Possible(P, w, u) {
        FinishedStays(P, w, u);
      }
    }
  }

  lemma FinishedStays(P: Program, w: World, u: Turn)
    requires Possible(P, w, u) && WaitedForPredecessor(w) && LeftInOrder(w) && LeavesAfterWaiting(w, u)
    ensures WaitedForPredecessor(Play(P, Ordered, w, u)) && LeftInOrder(Play(P, Ordered, w, u))
  {
    var w' := Play(P, Ordered, w, u);
    assert forall j :: HasFinished(w, j) ==> HasFinished(w', j);
  }

  // ---- the live threads, in that order, are the stack of the elided program ----

  function FrameOf(threads: seq<Thread>, i: nat): seq<Frame> {
    if i < |threads| && !threads[i].stage.Gone? then [Frame(threads[i].ctx, |threads[i].handles|)] else []
  }

  function Frames(threads: seq<Thread>, order: seq<nat>): seq<Frame> {
    if order == [] then [] else FrameOf(threads, order[0]) + Frames(threads, order[1..])
  }

  lemma {:induction false} FramesSplit(threads: seq<Thread>, a: seq<nat>, b: seq<nat>)
    ensures Frames(threads, a + b) == Frames(threads, a) + Frames(threads, b)
  {
    if a == [] {
      assert a + b == b;
    } else {
      assert (a + b)[0] == a[0] && (a + b)[1..] == a[1..] + b;
      FramesSplit(threads, a[1..], b);
    }
  }

  lemma {:induction false} FramesSame(threads: seq<Thread>, threads': seq<Thread>, order: seq<nat>)
    requires forall m :: 0 <= m < |order| ==> FrameOf(threads', order[m]) == FrameOf(threads, order[m])
    ensures Frames(threads', order) == Frames(threads, order)
  {
    if order != [] {
      FramesSame(threads, threads', order[1..]);
    }
  }

  lemma {:induction false} NoFrames(threads: seq<Thread>, order: seq<nat>)
    requires forall m :: 0 <= m < |order| ==> FrameOf(threads, order[m]) == []
    ensures Frames(threads, order) == []
  {
    if order != [] {
      NoFrames(threads, order[1..]);
    }
  }

  /** The stack around the `k`-th thread, whose own place is taken by the threads `mine`. */
  lemma FramesAround(threads: seq<Thread>, threads': seq<Thread>, order: seq<nat>, k: nat, mine: seq<nat>)
    requires k < |order|
    requires forall m :: 0 <= m < |order| && m != k ==> FrameOf(threads', order[m]) == FrameOf(threads, order[m])
    ensures Frames(threads', order[..k] + (mine + order[k + 1..]))
            == Frames(threads, order[..k]) + (Frames(threads', mine) + Frames(threads, order[k + 1..]))
  {
    var a, b := order[..k], order[k + 1..];
    FramesSplit(threads', a, mine + b);
    FramesSplit(threads', mine, b);
    FramesSame(threads, threads', a);
    FramesSame(threads, threads', b);
  }

  lemma InsertedBefore(order: seq<nat>, k: nat, pid: nat)
    requires k < |order|
    ensures order[..k] + [pid] + order[k..] == order[..k] + ([pid, order[k]] + order[k + 1..])
  {
    var a, b := order[..k] + [pid] + order[k..], order[..k] + ([pid, order[k]] + order[k + 1..]);
    assert |a| == |b|;
    forall m | 0 <= m < |a| ensures a[m] == b[m] {
      assert a[m] == if m < k then order[m] else if m == k then pid else order[m - 1];
      assert b[m] == if m < k then order[m] else if m == k then pid else order[m - 1];
    }
  }

  lemma SpawnOrder(P: Program, w: World, i: nat, k: nat)
    requires Linked(w) && i < |w.threads| && P.next(w.threads[i].ctx).Create? && k < |w.order| && w.order[k] == i
    ensures Spawned(P, Ordered, w, i).order == w.order[..k] + ([|w.threads|, i] + w.order[k + 1..])
  {
    var m := InsertShape(w.order, i, |w.threads|);
    assert w.order[m] == w.order[k];
    assert m == k;
    InsertedBefore(w.order, k, |w.threads|);
  }

  lemma FramesAfterSpawn(P: Program, w: World, i: nat, k: nat)
    requires Linked(w) && i < |w.threads| && w.threads[i].stage.Done? && P.next(w.threads[i].ctx).Create?
    requires k < |w.order| && w.order[k] == i
    ensures var w' := Spawned(P, Ordered, w, i);
            Frames(w'.threads, w'.order) ==
              Frames(w.threads, w.order[..k])
              + (PastSync(P, Frame(w.threads[i].ctx, |w.threads[i].handles|)) + Frames(w.threads, w.order[k + 1..]))
  {
    var w' := Spawned(P, Ordered, w, i);
    SpawnOrder(P, w, i, k);
    FramesAround(w.threads, w'.threads, w.order, k, [|w.threads|, i]);
    TwoFrames(w'.threads, |w.threads|, i);
  }

  /** What takes the place of the frame of the thread that moves. */
  function Moved(P: Program, w: World, u: Turn): seq<Frame>
    requires Possible(P, w, u)
  {
    var f := Frame(w.threads[u.pid].ctx, |w.threads[u.pid].handles|);
    if u.move.Segment? then [f.(ctx := Play(P, Ordered, w, u).threads[u.pid].ctx)] else PastSync(P, f)
  }

  lemma OwnFrameAfter(P: Program, w: World, u: Turn)
    requires Possible(P, w, u) && !u.move.Spawn?
    ensures var w' := Play(P, Ordered, w, u);
            w'.order == w.order && |w'.threads| == |w.threads| && FrameOf(w'.threads, u.pid) == Moved(P, w, u)
            && forall j :: 0 <= j < |w.threads| && j != u.pid ==> w'.threads[j] == w.threads[j]
  {
  }

  /** How a turn of the `k`-th thread changes the stack. */
  lemma FramesAfter(P: Program, w: World, u: Turn, k: nat)
    requires Linked(w) && Possible(P, w, u) && k < |w.order| && w.order[k] == u.pid
    ensures var w' := Play(P, Ordered, w, u);
            var above, below := Frames(w.threads, w.order[..k]), Frames(w.threads, w.order[k + 1..]);
            Frames(w'.threads, w'.order) == above + (Moved(P, w, u) + below)
  {
    if u.move.Spawn? {
      FramesAfterSpawn(P, w, u.pid, k);
    } else {
      var w' := Play(P, Ordered, w, u);
      OwnFrameAfter(P, w, u);
      assert w.order == w.order[..k] + ([u.pid] + w.order[k + 1..]);
      FramesAround(w.threads, w'.threads, w.order, k, [u.pid]);
      OneFrame(w'.threads, u.pid);
    }
  }

  lemma FramesBefore(w: World, i: nat, k: nat)
    requires i < |w.threads| && !w.threads[i].stage.Gone? && k < |w.order| && w.order[k] == i
    ensures Frames(w.threads, w.order) ==
              Frames(w.threads, w.order[..k])
              + ([Frame(w.threads[i].ctx, |w.threads[i].handles|)] + Frames(w.threads, w.order[k + 1..]))
  {
    assert w.order == w.order[..k] + ([i] + w.order[k + 1..]);
    FramesAround(w.threads, w.threads, w.order, k, [i]);
    OneFrame(w.threads, i);
  }

  lemma OneFrame(threads: seq<Thread>, i: nat)
    ensures Frames(threads, [i]) == FrameOf(threads, i)
  {
    assert [i][1..] == [];
  }

  lemma TwoFrames(threads: seq<Thread>, i: nat, j: nat)
    ensures Frames(threads, [i, j]) == FrameOf(threads, i) + FrameOf(threads, j)
  {
    assert [i, j][1..] == [j];
    OneFrame(threads, j);
  }

  /** What the elided program makes of the stack after the top frame has run its segment, it makes of
      the stack before. */
  lemma {:induction false} TopSegmentBack(
      P: Program, h: Heap, above: seq<Frame>, f: Frame, below: seq<Frame>, n: nat, final: Heap)
    requires above == []
    requires var m := DirectRun(P, f.ctx, h, n); Returns(P, m.heap, above + ([f.(ctx := m.ctx)] + below), final)
    ensures Returns(P, h, above + ([f] + below), final)
  {
    var m := DirectRun(P, f.ctx, h, n);
    assert above + ([f] + below) == [f] + below;
    assert above + ([f.(ctx := m.ctx)] + below) == [f.(ctx := m.ctx)] + below;
    SegmentOnTop(P, h, f, below, n, final);
  }

  lemma {:induction false} SegmentBack(P: Program, w: World, u: Turn, k: nat, final: Heap)
    requires OrderOk(w) && Possible(P, w, u) && u.move.Segment? && k < |w.order| && w.order[k] == u.pid
    requires AtSync(P, w.threads[u.pid].ctx) || AllBefore(w, k)
    requires Returns(P, Play(P, Ordered, w, u).heap,
                     Frames(w.threads, w.order[..k]) + (Moved(P, w, u) + Frames(w.threads, w.order[k + 1..])), final)
    ensures var f := Frame(w.threads[u.pid].ctx, |w.threads[u.pid].handles|);
            Returns(P, w.heap, Frames(w.threads, w.order[..k]) + ([f] + Frames(w.threads, w.order[k + 1..])), final)
  {
    var d := w.threads[u.pid];
    if AtSync(P, d.ctx) {
      StopsAtSync(P, d.ctx, w.heap, 0, u.move.accesses);
    } else {
      NoFrames(w.threads, w.order[..k]);
      TopSegmentBack(P, w.heap, Frames(w.threads, w.order[..k]), Frame(d.ctx, |d.handles|),
                     Frames(w.threads, w.order[k + 1..]), u.move.accesses, final);
    }
  }

  /** Whatever the elided program makes of the state after a turn, it makes of the state before. */
  lemma {:induction false} TurnBack(P: Program, w: World, u: Turn, final: Heap)
    requires OrderOk(w) && Possible(P, w, u)
    requires var w' := Play(P, Ordered, w, u); Returns(P, w'.heap, Frames(w'.threads, w'.order), final)
    ensures Returns(P, w.heap, Frames(w.threads, w.order), final)
  {
    var i := u.pid;
    var d := w.threads[i];
    assert i in w.order;
    var k: nat :| k < |w.order| && w.order[k] == i;
    if u.move.Segment? && !AtSync(P, d.ctx) {
      k := SegmentsInOrder(P, w, i, u.move.accesses);
    }
    FramesBefore(w, i, k);
    FramesAfter(P, w, u, k);
    if u.move.Segment? {
      SegmentBack(P, w, u, k, final);
    } else {
      assert Play(P, Ordered, w, u).heap == w.heap;
      SyncEarly(P, w.heap, Frames(w.threads, w.order[..k]), Frame(d.ctx, |d.handles|), Frames(w.threads, w.order[k + 1..]), final);
    }
  }

  lemma {:induction false} BackToTheStart(P: Program, c: Context, h: Heap, turns: seq<Turn>, final: Heap)
    requires Disciplined(P, Origin(c, h), turns)
    ensures var w := PlayAll(P, Ordered, Origin(c, h), turns);
            Returns(P, w.heap, Frames(w.threads, w.order), final) ==> Returns(P, h, [Frame(c, 0)], final)
  {
    if turns == [] {
      OneFrame(Origin(c, h).threads, 0);
    } else {
      var before, u := turns[..|turns| - 1], turns[|turns| - 1];
      BackToTheStart(P, c, h, before, final);
      PlaysAreLinked(P, c, h, before);
      var v := PlayAll(P, Ordered, Origin(c, h), before);
      assert LeftInOrder(v) by {
        assert Disciplined(P, Origin(c, h), before);
      }
      var w := PlayAll(P, Ordered, Origin(c, h), turns);
      if Possible(P, v, u) && Returns(P, w.heap, Frames(w.threads, w.order), final) {
        TurnBack(P, v, u, final);
      }
    }
  }

  /** Sequential semantics: when every thread of a disciplined execution has finished, the heap is
      the one the elided program returns. */
  lemma SequentialResult(P: Program, c: Context, h: Heap, turns: seq<Turn>)
    requires Disciplined(P, Origin(c, h), turns)
    requires var w := PlayAll(P, Ordered, Origin(c, h), turns);
             forall i :: 0 <= i < |w.threads| ==> w.threads[i].stage.Gone?
    ensures Returns(P, h, [Frame(c, 0)], PlayAll(P, Ordered, Origin(c, h), turns).heap)
  {
    var w := PlayAll(P, Ordered, Origin(c, h), turns);
    BackToTheStart(P, c, h, turns, w.heap);
    NoFrames(w.threads, w.order);
    assert CallRun(P, Calls(w.heap, []), 0) == Calls(w.heap, []);
  }

  // ---- runs of the runtime ----

  /** The order in which the elided program would finish the threads started so far. */
  function ElidedOrder(P: Program, c: Context, h: Heap, schedule: Schedule): seq<nat> {
    PlayAll(P, Ordered, Origin(c, h), Images(P, Ordered, Initial(c, h), schedule)).order
  }

  predicate HasExited(s: State, i: nat) {
    i < |s.procs| && s.procs[i].phase.Exited?
  }

  /** The predecessor of `i` has exited, or there is none. */
  predicate MayCommit(s: State, i: nat) {
    i < |s.procs| && PredecessorDone(s, s.procs[i])
  }

  /** Every process but the root that has exited did so after its predecessor. */
  predicate ExitedInOrder(s: State) {
    forall i :: 0 < i < |s.procs| && s.procs[i].phase.Exited? ==> PredecessorDone(s, s.procs[i])
  }

  predicate ExitsInOrder(P: Program, s: State, schedule: Schedule) {
    ExitedInOrder(Run(P, Ordered, s, schedule)) &&
    (schedule != [] ==> ExitsInOrder(P, s, schedule[..|schedule| - 1]))
  }

  /** Processes and threads agree on who has left. */
  lemma SameGone(s: State, w: World)
    requires Matches(s, w)
    ensures forall i: nat :: HasFinished(w, i) <==> HasExited(s, i)
    ensures forall i :: 0 <= i < |s.procs| ==> (FinishedOrNone(w, w.threads[i].predecessor) <==> PredecessorDone(s, s.procs[i]))
    ensures LeftInOrder(w) <==> ExitedInOrder(s)
  {
    forall i | 0 <= i < |s.procs| ensures Shows(s.procs[i], w.threads[i]) {
    }
    forall i: nat | HasFinished(w, i) || HasExited(s, i) ensures HasFinished(w, i) && HasExited(s, i) {
      assert Shows(s.procs[i], w.threads[i]);
    }
    forall i | 0 <= i < |s.procs|
      ensures FinishedOrNone(w, w.threads[i].predecessor) <==> PredecessorDone(s, s.procs[i])
    {
      assert Shows(s.procs[i], w.threads[i]);
      var t := s.procs[i].predecessor;
      assert HasFinished(w, t) <==> HasExited(s, t);
    }
  }

  /** In every reachable state of the ordered build: a process whose predecessor has exited comes
      after exited processes only, if and only if every exited process left after its predecessor. */
  lemma {:induction false} OrderIsKeptExactly(P: Program, c: Context, h: Heap, schedule: Schedule)
    ensures var s, order := Run(P, Ordered, Initial(c, h), schedule), ElidedOrder(P, c, h, schedule);
            && Distinct(order) && (forall i :: i in order <==> 0 <= i < |s.procs|)
            && (ExitedInOrder(s) <==>
                  forall k :: 0 <= k < |order| && MayCommit(s, order[k]) ==>
                    forall j :: 0 <= j < k ==> HasExited(s, order[j]))
  {
    var s, order := Run(P, Ordered, Initial(c, h), schedule), ElidedOrder(P, c, h, schedule);
    var turns := Images(P, Ordered, Initial(c, h), schedule);
    var w := PlayAll(P, Ordered, Origin(c, h), turns);
    Serializable(P, Ordered, c, h, schedule);
    PlaysAreLinked(P, c, h, turns);
    SameGone(s, w);
    OrderIsExact(w);
    forall k | 0 <= k < |order| ensures AllBefore(w, k) <==> forall j :: 0 <= j < k ==> HasExited(s, order[j]) {
      forall j | 0 <= j < k ensures HasFinished(w, order[j]) <==> HasExited(s, order[j]) {
      }
    }
  }

  /** A commit of a segment that touched the heap comes after the exits of all processes that the
      elided program would finish first. */
  lemma {:induction false} HeapIsTouchedInOrder(P: Program, c: Context, h: Heap, schedule: Schedule, i: nat) returns (k: nat)
    requires var s := Run(P, Ordered, Initial(c, h), schedule);
             ExitedInOrder(s) && i < |s.procs| && (s.procs[i].phase.AwaitingMutex? || s.procs[i].phase.Validating?)
    ensures var s, order := Run(P, Ordered, Initial(c, h), schedule), ElidedOrder(P, c, h, schedule);
            k < |order| && order[k] == i && forall j :: 0 <= j < k ==> HasExited(s, order[j])
  {
    var order := ElidedOrder(P, c, h, schedule);
    Serializable(P, Ordered, c, h, schedule);
    OrderIsKeptExactly(P, c, h, schedule);
    assert i in order;
    k :| 0 <= k < |order| && order[k] == i;
  }

  lemma {:induction false} ExitedMeansLeft(P: Program, c: Context, h: Heap, schedule: Schedule)
    requires ExitedInOrder(Run(P, Ordered, Initial(c, h), schedule))
    ensures LeftInOrder(PlayAll(P, Ordered, Origin(c, h), Images(P, Ordered, Initial(c, h), schedule)))
  {
    Serializable(P, Ordered, c, h, schedule);
    SameGone(Run(P, Ordered, Initial(c, h), schedule),
             PlayAll(P, Ordered, Origin(c, h), Images(P, Ordered, Initial(c, h), schedule)));
  }

  lemma {:induction false} ExitsAreDisciplined(P: Program, c: Context, h: Heap, schedule: Schedule)
    requires ExitsInOrder(P, Initial(c, h), schedule)
    ensures Disciplined(P, Origin(c, h), Images(P, Ordered, Initial(c, h), schedule))
  {
    if schedule != [] {
      var before := schedule[..|schedule| - 1];
      ExitsAreDisciplined(P, c, h, before);
      ExitedMeansLeft(P, c, h, schedule);
      var turns := Images(P, Ordered, Initial(c, h), before);
      var more := Image(P, Run(P, Ordered, Initial(c, h), before), schedule[|schedule| - 1]);
      AtMostOneTurn(P, Run(P, Ordered, Initial(c, h), before), schedule[|schedule| - 1]);
      assert Images(P, Ordered, Initial(c, h), schedule) == turns + more;
      OneMoreDisciplined(P, Origin(c, h), turns, more);
    }
  }

  lemma AtMostOneTurn(P: Program, s: State, e: Event)
    ensures |Image(P, s, e)| <= 1
  {
  }

  lemma OneMoreDisciplined(P: Program, w: World, turns: seq<Turn>, more: seq<Turn>)
    requires Disciplined(P, w, turns) && |more| <= 1 && LeftInOrder(PlayAll(P, Ordered, w, turns + more))
    ensures Disciplined(P, w, turns + more)
  {
    if more == [] {
      assert turns + more == turns;
    } else {
      assert (turns + more)[..|turns + more| - 1] == turns;
    }
  }

  lemma {:induction false} DisciplinedRun(P: Program, c: Context, h: Heap, schedule: Schedule)
    requires Disciplined(P, Origin(c, h), Images(P, Ordered, Initial(c, h), schedule))
    requires var s := Run(P, Ordered, Initial(c, h), schedule);
             forall i :: 0 <= i < |s.procs| ==> s.procs[i].phase.Exited?
    ensures Returns(P, h, [Frame(c, 0)], Run(P, Ordered, Initial(c, h), schedule).heap)
  {
    var s := Run(P, Ordered, Initial(c, h), schedule);
    var turns := Images(P, Ordered, Initial(c, h), schedule);
    Serializable(P, Ordered, c, h, schedule);
    var w := PlayAll(P, Ordered, Origin(c, h), turns);
    assert !Committing(s);
    SameGone(s, w);
    forall i | 0 <= i < |w.threads| ensures w.threads[i].stage.Gone? {
      assert HasExited(s, i) && HasFinished(w, i);
    }
    SequentialResult(P, c, h, turns);
  }

  /** Sequential semantics of the runtime: every complete run of an ordered build in which no process
      but the first exits before its predecessor, whatever its interleavings and rollbacks, leaves the
      heap of the elided program. */
  lemma {:induction false} OrderedRunsAreSequential(P: Program, c: Context, h: Heap, schedule: Schedule)
    requires ExitsInOrder(P, Initial(c, h), schedule)
    requires var s := Run(P, Ordered, Initial(c, h), schedule);
             forall i :: 0 <= i < |s.procs| ==> s.procs[i].phase.Exited?
    ensures Returns(P, h, [Frame(c, 0)], Run(P, Ordered, Initial(c, h), schedule).heap)
  {
    ExitsAreDisciplined(P, c, h, schedule);
    DisciplinedRun(P, c, h, schedule);
  }

  /** In particular if each process, after it started or last forked, touches the heap or joins its
      predecessor before it leaves. */
  lemma {:induction false} WaitingRunsAreSequential(P: Program, c: Context, h: Heap, schedule: Schedule)
    requires WaitsBeforeLeaving(P, Origin(c, h), Images(P, Ordered, Initial(c, h), schedule))
    requires var s := Run(P, Ordered, Initial(c, h), schedule);
             forall i :: 0 <= i < |s.procs| ==> s.procs[i].phase.Exited?
    ensures Returns(P, h, [Frame(c, 0)], Run(P, Ordered, Initial(c, h), schedule).heap)
  {
    WaitingSuffices(P, c, h, Images(P, Ordered, Initial(c, h), schedule));
    DisciplinedRun(P, c, h, schedule);
  }
}
