/** The increment workload of example/test.cc, for any number of threads and secondary threads. */
module Increment {
  import opened Memory
  import opened Segments
  import opened Protocol
  import opened Invariant
  import opened Serial
  import opened Refinement

  /** The cells of the blob, and how many fn1 threads main starts and fn2 threads each of those. */
  datatype Workload = Workload(cells: seq<Address>, threads: nat, secondary: nat)

  predicate Valid(W: Workload) {
    W.cells != [] && forall i, j :: 0 <= i < j < |W.cells| ==> W.cells[i] != W.cells[j]
  }

  // ---- the code ----

  const ROOT: nat := 0     // wrapped_main: start main and join it
  const CLEAR: nat := 1    // main: memset of the blob
  const MAIN: nat := 2     // main: the create loop and the join loop
  const FN1: nat := 3      // fn1: the increments
  const NESTED: nat := 4   // fn1: its create loop and its join loop
  const FN2: nat := 5      // fn2: the increments
  const LAST: nat := 6

  predicate Spawner(c: Context) {
    c.code == ROOT || c.code == MAIN || c.code == NESTED
  }

  function Limit(W: Workload, code: nat): nat {
    if code == ROOT then 1 else if code == MAIN then W.threads else W.secondary
  }

  function At0(code: nat): Context {
    Context(code, 0, 0, [])
  }

  /** Spawners keep the handles they got on their stack, and count their joins in `pc`; a worker
      counts cells in `pc`, and a non-empty stack means it has loaded and is about to store. */
  function Code(W: Workload, c: Context): Op {
    if Spawner(c) then
      if |c.stack| < Limit(W, c.code) then Create(At0(c.code + 1))
      else if c.pc < |c.stack| && c.stack[c.pc] >= 0 then Join(c.stack[c.pc])
      else Exit
    else if c.code == CLEAR && c.pc < |W.cells| then Store(W.cells[c.pc], 0)
    else if (c.code == FN1 || c.code == FN2) && c.pc < |W.cells| then
      if c.stack == [] then Load(W.cells[c.pc]) else Store(W.cells[c.pc], c.register + 1)
    else Exit
  }

  function After(W: Workload, c: Context, v: int): Context {
    if Spawner(c) then
      if |c.stack| < Limit(W, c.code) then c.(stack := c.stack + [v]) else c.(pc := c.pc + 1)
    else if c.code != CLEAR && c.stack == [] then Context(c.code, c.pc, v, [0])
    else if c.pc + 1 < |W.cells| then Context(c.code, c.pc + 1, 0, [])
    else At0(c.code + 1)
  }

  function Test(W: Workload): Program {
    Program(c => Code(W, c), (c, v) => After(W, c, v))
  }

  // ---- the two segments that touch the heap ----

  lemma {:induction false} ClearRun(W: Workload, h: Heap, k: nat)
    requires Valid(W) && k <= |W.cells|
    ensures var m := DirectRun(Test(W), At0(CLEAR), h, k);
            m.ctx == (if k == 0 then At0(CLEAR) else After(W, Context(CLEAR, k - 1, 0, []), 0))
            && forall j :: 0 <= j < k ==> Read(m.heap, W.cells[j]) == 0
  {
    if k > 0 {
      ClearRun(W, h, k - 1);
      ClearOneMore(W, DirectRun(Test(W), At0(CLEAR), h, k - 1), k - 1);
    }
  }

  lemma ClearOneMore(W: Workload, m: Machine, k: nat)
    requires Valid(W) && k < |W.cells| && m.ctx == Context(CLEAR, k, 0, [])
    requires forall j :: 0 <= j < k ==> Read(m.heap, W.cells[j]) == 0
    ensures var n := Direct(Test(W), m);
            n.ctx == After(W, Context(CLEAR, k, 0, []), 0) && forall j :: 0 <= j <= k ==> Read(n.heap, W.cells[j]) == 0
  {
    assert Test(W).next(m.ctx) == Store(W.cells[k], 0);
  }

  predicate Incremented(W: Workload, h: Heap, h': Heap, k: nat)
    requires k <= |W.cells|
  {
    forall j :: 0 <= j < |W.cells| ==> Read(h', W.cells[j]) == Read(h, W.cells[j]) + (if j < k then 1 else 0)
  }

  /** Two accesses of fn1 or fn2 add one to one cell. */
  lemma OneIncrement(W: Workload, code: nat, m: Machine, k: nat)
    requires Valid(W) && (code == FN1 || code == FN2) && k < |W.cells|
    requires m.ctx == Context(code, k, 0, [])
    ensures var n := Direct(Test(W), Direct(Test(W), m));
            n.ctx == (if k + 1 < |W.cells| then Context(code, k + 1, 0, []) else At0(code + 1))
            && n.heap == Write(m.heap, W.cells[k], Read(m.heap, W.cells[k]) + 1)
  {
    var P := Test(W);
    var a := W.cells[k];
    assert P.next(m.ctx) == Load(a);
    var l := Direct(P, m);
    assert l == Machine(Context(code, k, Read(m.heap, a), [0]), m.heap, m.wrote);
    assert P.next(l.ctx) == Store(a, Read(m.heap, a) + 1);
  }

  lemma RunTwoMore(P: Program, c: Context, h: Heap, n: nat)
    ensures DirectRun(P, c, h, n + 2) == Direct(P, Direct(P, DirectRun(P, c, h, n)))
  {
    assert DirectRun(P, c, h, n + 1) == Direct(P, DirectRun(P, c, h, n));
  }

  predicate WorkDone(W: Workload, code: nat, h: Heap, k: nat, m: Machine)
    requires k <= |W.cells|
  {
    m.ctx == (if k < |W.cells| then Context(code, k, 0, []) else At0(code + 1)) && Incremented(W, h, m.heap, k)
  }

  lemma MoreWork(W: Workload, P: Program, code: nat, h: Heap, k: nat, m: Machine, n: Machine)
    requires Valid(W) && P == Test(W) && (code == FN1 || code == FN2) && k < |W.cells| && WorkDone(W, code, h, k, m)
    requires n == Direct(P, Direct(P, m))
    ensures WorkDone(W, code, h, k + 1, n)
  {
    OneIncrement(W, code, m, k);
    IncrementedOnce(W, h, m.heap, k);
  }

  lemma WorkBegins(W: Workload, code: nat, h: Heap)
    requires Valid(W)
    ensures WorkDone(W, code, h, 0, Machine(At0(code), h, {}))
  {
  }

  /** What two accesses keep, any even number of accesses keeps. */
  lemma {:induction false} RunByPairs(P: Program, c: Context, h: Heap, k: nat, kept: (nat, Machine) -> bool)
    requires kept(0, Machine(c, h, {}))
    requires forall j: nat, m: Machine :: j < k && kept(j, m) ==> kept(j + 1, Direct(P, Direct(P, m)))
    ensures kept(k, DirectRun(P, c, h, 2 * k))
  {
    if k > 0 {
      RunByPairs(P, c, h, k - 1, kept);
      RunTwoMore(P, c, h, 2 * (k - 1));
    }
  }

  lemma WorkRun(W: Workload, P: Program, code: nat, h: Heap)
    requires Valid(W) && P == Test(W) && (code == FN1 || code == FN2)
    ensures WorkDone(W, code, h, |W.cells|, DirectRun(P, At0(code), h, 2 * |W.cells|))
  {
    var kept := (j: nat, m: Machine) => j <= |W.cells| && WorkDone(W, code, h, j, m);
    WorkBegins(W, code, h);
    forall j: nat, m: Machine | j < |W.cells| && kept(j, m) ensures kept(j + 1, Direct(P, Direct(P, m))) {
      MoreWork(W, P, code, h, j, m, Direct(P, Direct(P, m)));
    }
    RunByPairs(P, At0(code), h, |W.cells|, kept);
  }

  lemma IncrementedOnce(W: Workload, h: Heap, h': Heap, k: nat)
    requires Valid(W) && k < |W.cells| && Incremented(W, h, h', k)
    ensures Incremented(W, h, Write(h', W.cells[k], Read(h', W.cells[k]) + 1), k + 1)
  {
  }

  predicate AllCells(W: Workload, h: Heap, v: int) {
    forall j :: 0 <= j < |W.cells| ==> Read(h, W.cells[j]) == v
  }

  /** However long it takes, the segment of a clear or increment ends like this. */
  lemma {:induction false} SegmentEffect(W: Workload, code: nat, h: Heap, n: nat, v: int)
    requires Valid(W) && (code == CLEAR || code == FN1 || code == FN2)
    requires AtSync(Test(W), DirectRun(Test(W), At0(code), h, n).ctx)
    ensures var m := DirectRun(Test(W), At0(code), h, n);
            m.ctx == At0(code + 1)
            && (code == CLEAR ==> AllCells(W, m.heap, 0))
            && (code != CLEAR && AllCells(W, h, v) ==> AllCells(W, m.heap, v + 1))
  {
    var k := |W.cells|;
    if code == CLEAR {
      ClearedAll(W, h);
      SegmentIsDeterministic(Test(W), At0(code), h, n, k);
    } else {
      WorkRun(W, Test(W), code, h);
      IncrementedAll(W, code, h, DirectRun(Test(W), At0(code), h, 2 * k), v);
      SegmentIsDeterministic(Test(W), At0(code), h, n, 2 * k);
    }
  }

  lemma {:induction false} ClearedAll(W: Workload, h: Heap)
    requires Valid(W)
    ensures var m := DirectRun(Test(W), At0(CLEAR), h, |W.cells|);
            m.ctx == At0(MAIN) && AllCells(W, m.heap, 0) && AtSync(Test(W), m.ctx)
  {
    ClearRun(W, h, |W.cells|);
  }

  lemma IncrementedAll(W: Workload, code: nat, h: Heap, m: Machine, v: int)
    requires WorkDone(W, code, h, |W.cells|, m) && (code == FN1 || code == FN2)
    ensures m.ctx == At0(code + 1) && AtSync(Test(W), m.ctx)
    ensures AllCells(W, h, v) ==> AllCells(W, m.heap, v + 1)
  {
  }

  // ---- what every thread still has to contribute ----

  /** The increments a thread about to start this code will bring, with its descendants. */
  function Worth(W: Workload, code: nat): nat {
    if code == CLEAR then W.threads * (W.secondary + 1)
    else if code == FN1 then W.secondary + 1
    else if code == FN2 then 1
    else 0
  }

  function Credit(W: Workload, d: Thread): nat {
    if d.stage.Gone? then 0
    else if Spawner(d.ctx) then
      if |d.ctx.stack| < Limit(W, d.ctx.code) then (Limit(W, d.ctx.code) - |d.ctx.stack|) * Worth(W, d.ctx.code + 1) else 0
    else Worth(W, d.ctx.code)
  }

  function Credits(W: Workload, threads: seq<Thread>): nat {
    if threads == [] then 0
    else Credits(W, threads[..|threads| - 1]) + Credit(W, threads[|threads| - 1])
  }

  lemma {:induction false} CreditsAfterUpdate(W: Workload, threads: seq<Thread>, i: nat, d: Thread)
    requires i < |threads|
    ensures Credits(W, threads[i := d]) + Credit(W, threads[i]) == Credits(W, threads) + Credit(W, d)
  {
    var n := |threads| - 1;
    if i < n {
      CreditsAfterUpdate(W, threads[..n], i, d);
      assert threads[i := d][..n] == threads[..n][i := d];
    } else {
      assert threads[i := d][..n] == threads[..n];
    }
  }

  lemma {:induction false} NoCredits(W: Workload, threads: seq<Thread>)
    requires forall i :: 0 <= i < |threads| ==> Credit(W, threads[i]) == 0
    ensures Credits(W, threads) == 0
  {
    if threads != [] {
      NoCredits(W, threads[..|threads| - 1]);
    }
  }

  // ---- the invariant ----

  predicate ThreadOk(W: Workload, d: Thread) {
    && d.ctx.code <= LAST && d.ctx.register == 0
    && (if Spawner(d.ctx) then
          d.ctx.pc <= |d.ctx.stack| <= Limit(W, d.ctx.code)
          && (d.ctx.pc > 0 || d.stage.Gone? ==> |d.ctx.stack| == Limit(W, d.ctx.code))
          && (d.stage.Gone? ==> d.ctx.pc == |d.ctx.stack|)
          && (forall m :: 0 <= m < |d.ctx.stack| ==> 0 <= d.ctx.stack[m] < |d.handles|)
        else
          d.ctx == At0(d.ctx.code) && (d.ctx.code != LAST ==> d.stage.Ready?))
  }

  /** The child behind the `m`-th handle on the stack. */
  function ChildAt(d: Thread, m: nat): nat {
    if m < |d.ctx.stack| && 0 <= d.ctx.stack[m] < |d.handles| then d.handles[d.ctx.stack[m]] else 0
  }

  /** Thread `j` is one of the children its parent remembers. */
  predicate Remembered(w: World, j: nat) {
    j < |w.threads| && (j > 0 ==>
      var p := w.threads[j].parent;
      p < j && Spawner(w.threads[p].ctx) &&
      exists m :: 0 <= m < |w.threads[p].ctx.stack| && ChildAt(w.threads[p], m) == j)
  }

  /** The children joined so far have finished. */
  predicate JoinedFinished(w: World, i: nat) {
    i < |w.threads| &&
    var d := w.threads[i];
    && (forall k :: 0 <= k < |d.handles| ==> 0 < d.handles[k] < |w.threads|)
    && (Spawner(d.ctx) ==> forall m :: 0 <= m < d.ctx.pc ==> HasFinished(w, ChildAt(d, m)))
  }

  /** The handles a thread keeps name its own children. */
  predicate OwnChildren(w: World, i: nat) {
    i < |w.threads| &&
    forall m :: 0 <= m < |w.threads[i].ctx.stack| ==>
      var child := ChildAt(w.threads[i], m);
      child < |w.threads| && w.threads[child].parent == i
  }

  predicate MemberOk(W: Workload, w: World, i: nat) {
    i < |w.threads| && ThreadOk(W, w.threads[i]) && Remembered(w, i) && JoinedFinished(w, i) && OwnChildren(w, i)
  }

  predicate FamilyOk(W: Workload, w: World) {
    && w.threads != [] && w.threads[0].ctx.code == ROOT
    && (forall i :: 1 <= i < |w.threads| ==> w.threads[i].ctx.code != ROOT)
    && (forall i :: 0 <= i < |w.threads| ==> MemberOk(W, w, i))
  }

  function Expected(W: Workload): nat {
    W.threads * (W.secondary + 1)
  }

  /** main has not run its memset yet. */
  predicate Uncleared(w: World) {
    1 <= |w.threads| <= 2 && (|w.threads| == 2 ==> w.threads[1].ctx == At0(CLEAR) && w.threads[1].stage.Ready?)
  }

  predicate Balanced(W: Workload, w: World) {
    && Credits(W, w.threads) <= Expected(W)
    && (if Uncleared(w) then Credits(W, w.threads) == Expected(W)
        else AllCells(W, w.heap, Expected(W) - Credits(W, w.threads))
             && forall i :: 0 <= i < |w.threads| ==> w.threads[i].ctx.code != CLEAR)
  }

  // ---- each turn keeps it ----

  /** The thread whose turn it is, before and after; only a fork adds a thread. */
  lemma SyncOutcome(W: Workload, b: Build, w: World, u: Turn)
    requires Valid(W) && FamilyOk(W, w) && Possible(Test(W), w, u) && (u.move.Joined? || u.move.Finish?)
    ensures var w' := Play(Test(W), b, w, u);
            var d, d' := w.threads[u.pid], w'.threads[u.pid];
            w'.heap == w.heap && ThreadOk(W, d') && Spawner(d.ctx) == Spawner(d'.ctx)
            && w'.threads == w.threads[u.pid := d'] && Credit(W, d') == Credit(W, d)
  {
    assert MemberOk(W, w, u.pid);
  }

  lemma SpawnOutcome(W: Workload, b: Build, w: World, u: Turn)
    requires Valid(W) && FamilyOk(W, w) && Possible(Test(W), w, u) && u.move.Spawn?
    ensures var w' := Play(Test(W), b, w, u);
            var d, d' := w.threads[u.pid], w'.threads[u.pid];
            var child := w'.threads[|w.threads|];
            w'.heap == w.heap && ThreadOk(W, d') && Spawner(d.ctx) && Spawner(d'.ctx)
            && w'.threads == w.threads[u.pid := d'] + [child] && ThreadOk(W, child)
            && child.ctx == At0(d.ctx.code + 1) && child.stage.Ready?
            && d'.ctx.code == d.ctx.code && |d'.ctx.stack| == |d.ctx.stack| + 1
  {
    assert MemberOk(W, w, u.pid);
  }

  /** A fork hands part of the parent's contribution to the child. */
  lemma SpawnSplitsCredit(W: Workload, d: Thread, d': Thread, child: Thread)
    requires Spawner(d.ctx) && !d.stage.Gone? && |d.ctx.stack| < Limit(W, d.ctx.code)
    requires Spawner(d'.ctx) && !d'.stage.Gone? && d'.ctx.code == d.ctx.code && |d'.ctx.stack| == |d.ctx.stack| + 1
    requires child.ctx == At0(d.ctx.code + 1) && child.stage.Ready?
    ensures Credit(W, d') + Credit(W, child) == Credit(W, d)
  {
    var left := Limit(W, d.ctx.code) - |d.ctx.stack|;
    assert left * Worth(W, d.ctx.code + 1) == (left - 1) * Worth(W, d.ctx.code + 1) + Worth(W, d.ctx.code + 1);
  }

  predicate GrowsTo(d: Thread, d': Thread) {
    && d'.parent == d.parent && d.handles <= d'.handles && d.ctx.stack <= d'.ctx.stack
    && (Spawner(d.ctx) ==> Spawner(d'.ctx)) && (d.stage.Gone? ==> d'.stage.Gone?)
  }

  predicate AllGrow(w: World, w': World) {
    |w.threads| <= |w'.threads| && forall k :: 0 <= k < |w.threads| ==> GrowsTo(w.threads[k], w'.threads[k])
  }

  lemma RememberedKept(W: Workload, w: World, w': World, j: nat)
    requires FamilyOk(W, w) && AllGrow(w, w') && j < |w.threads|
    ensures Remembered(w', j)
  {
    assert MemberOk(W, w, j);
    if j > 0 {
      var p := w.threads[j].parent;
      assert GrowsTo(w.threads[j], w'.threads[j]) && GrowsTo(w.threads[p], w'.threads[p]);
      assert MemberOk(W, w, p);
      var m :| 0 <= m < |w.threads[p].ctx.stack| && ChildAt(w.threads[p], m) == j;
      assert ChildAt(w'.threads[p], m) == j;
    }
  }

  /** The joins of a thread stay honoured when its own joins do not change. */
  lemma JoinedKept(W: Workload, w: World, w': World, i: nat)
    requires FamilyOk(W, w) && AllGrow(w, w') && i < |w.threads|
    requires Spawner(w'.threads[i].ctx) ==>
               w'.threads[i].ctx.pc <= (if Spawner(w.threads[i].ctx) then w.threads[i].ctx.pc else 0)
    requires forall k :: |w.threads[i].handles| <= k < |w'.threads[i].handles| ==> 0 < w'.threads[i].handles[k] < |w'.threads|
    ensures JoinedFinished(w', i)
  {
    var d, d' := w.threads[i], w'.threads[i];
    assert MemberOk(W, w, i) && GrowsTo(d, d');
    if Spawner(d'.ctx) {
      forall m | 0 <= m < d'.ctx.pc ensures HasFinished(w', ChildAt(d', m)) {
        if Spawner(d.ctx) {
          assert HasFinished(w, ChildAt(d, m));
          assert GrowsTo(w.threads[ChildAt(d, m)], w'.threads[ChildAt(d, m)]);
        }
      }
    }
  }

  lemma OwnChildrenKept(W: Workload, w: World, w': World, i: nat)
    requires FamilyOk(W, w) && AllGrow(w, w') && i < |w.threads| && ThreadOk(W, w'.threads[i])
    requires var d, d' := w.threads[i], w'.threads[i];
             d'.ctx.stack == d.ctx.stack ||
             (d'.ctx.stack == d.ctx.stack + [|d.handles|] && d'.handles == d.handles + [|w.threads|]
              && |w.threads| < |w'.threads| && w'.threads[|w.threads|].parent == i)
    ensures OwnChildren(w', i)
  {
    var d, d' := w.threads[i], w'.threads[i];
    assert MemberOk(W, w, i) && GrowsTo(d, d');
    forall m | 0 <= m < |d'.ctx.stack| ensures ChildAt(d', m) < |w'.threads| && w'.threads[ChildAt(d', m)].parent == i {
      if m < |d.ctx.stack| {
        assert ChildAt(d', m) == ChildAt(d, m);
        assert GrowsTo(w.threads[ChildAt(d, m)], w'.threads[ChildAt(d, m)]);
      }
    }
  }

  /** A segment either reaches its synchronisation point at once or is a clear or an increment. */
  lemma SegmentOutcome(W: Workload, b: Build, w: World, u: Turn)
    requires Valid(W) && FamilyOk(W, w) && Possible(Test(W), w, u) && u.move.Segment?
    ensures var w' := Play(Test(W), b, w, u);
            var d, d' := w.threads[u.pid], w'.threads[u.pid];
            w'.threads == w.threads[u.pid := d'] && ThreadOk(W, d') && GrowsTo(d, d')
            && d'.handles == d.handles && d'.ctx.pc == d.ctx.pc
            && (if Spawner(d.ctx) || d.ctx.code == LAST then d'.ctx == d.ctx && w'.heap == w.heap
                else d'.ctx == At0(d.ctx.code + 1))
  {
    var d := w.threads[u.pid];
    assert MemberOk(W, w, u.pid);
    if Spawner(d.ctx) || d.ctx.code == LAST {
      StopsAtSync(Test(W), d.ctx, w.heap, 0, u.move.accesses);
    } else {
      SegmentEffect(W, d.ctx.code, w.heap, u.move.accesses, 0);
    }
  }

  lemma SegmentKeepsFamily(W: Workload, b: Build, w: World, u: Turn)
    requires Valid(W) && FamilyOk(W, w) && Possible(Test(W), w, u) && u.move.Segment?
    ensures FamilyOk(W, Play(Test(W), b, w, u))
  {
    var w' := Play(Test(W), b, w, u);
    SegmentOutcome(W, b, w, u);
    assert AllGrow(w, w');
    forall i | 0 <= i < |w'.threads| ensures MemberOk(W, w', i) {
      assert MemberOk(W, w, i);
      RememberedKept(W, w, w', i);
      JoinedKept(W, w, w', i);
      OwnChildrenKept(W, w, w', i);
    }
  }

  lemma SpawnShape(W: Workload, b: Build, w: World, u: Turn)
    requires Valid(W) && FamilyOk(W, w) && Possible(Test(W), w, u) && u.move.Spawn?
    ensures var w' := Play(Test(W), b, w, u);
            var d, d', n := w.threads[u.pid], w'.threads[u.pid], |w.threads|;
            AllGrow(w, w') && Spawner(d.ctx) && d'.ctx.pc == d.ctx.pc && d'.handles == d.handles + [n]
            && d'.ctx.stack == d.ctx.stack + [|d.handles|]
            && w'.threads[n].parent == u.pid && w'.threads[n].handles == d.handles && w'.threads[n].ctx.pc == 0
  {
    assert MemberOk(W, w, u.pid);
  }

  lemma OldThreadKept(W: Workload, w: World, w': World, i: nat, p: nat)
    requires FamilyOk(W, w) && AllGrow(w, w') && i < |w.threads| && p < |w.threads| < |w'.threads|
    requires i != p ==> w'.threads[i] == w.threads[i]
    requires ThreadOk(W, w'.threads[p]) && w'.threads[p].handles == w.threads[p].handles + [|w.threads|]
    requires Spawner(w.threads[p].ctx) && w'.threads[p].ctx.pc == w.threads[p].ctx.pc
    requires w'.threads[p].ctx.stack == w.threads[p].ctx.stack + [|w.threads[p].handles|]
    requires w'.threads[|w.threads|].parent == p
    ensures MemberOk(W, w', i)
  {
    assert MemberOk(W, w, i);
    RememberedKept(W, w, w', i);
    JoinedKept(W, w, w', i);
    OwnChildrenKept(W, w, w', i);
  }

  lemma SpawnKeepsFamily(W: Workload, b: Build, w: World, u: Turn)
    requires Valid(W) && FamilyOk(W, w) && Possible(Test(W), w, u) && u.move.Spawn?
    ensures FamilyOk(W, Play(Test(W), b, w, u))
  {
    var w' := Play(Test(W), b, w, u);
    var n := |w.threads|;
    SpawnShape(W, b, w, u);
    SpawnOutcome(W, b, w, u);
    var d, d' := w.threads[u.pid], w'.threads[u.pid];
    forall i | 0 <= i < n ensures MemberOk(W, w', i) {
      OldThreadKept(W, w, w', i, u.pid);
    }
    assert ChildAt(d', |d.ctx.stack|) == n;
    assert Remembered(w', n);
    assert JoinedFinished(w', n) by {
      assert MemberOk(W, w, u.pid);
    }
  }

  /** The thread that returns from a join has seen one more child finish. */
  lemma JoinedOneMore(W: Workload, b: Build, w: World, u: Turn)
    requires Valid(W) && FamilyOk(W, w) && Possible(Test(W), w, u) && u.move.Joined?
    ensures JoinedFinished(Play(Test(W), b, w, u), u.pid)
  {
    var w' := Play(Test(W), b, w, u);
    var d, d' := w.threads[u.pid], w'.threads[u.pid];
    assert MemberOk(W, w, u.pid);
    assert HasFinished(w', ChildAt(d, d.ctx.pc));
    forall m | 0 <= m < d'.ctx.pc ensures HasFinished(w', ChildAt(d', m)) {
      assert ChildAt(d', m) == ChildAt(d, m);
      assert m < d.ctx.pc ==> HasFinished(w, ChildAt(d, m));
    }
  }

  lemma SyncGrows(W: Workload, b: Build, w: World, u: Turn)
    requires Valid(W) && FamilyOk(W, w) && Possible(Test(W), w, u) && (u.move.Joined? || u.move.Finish?)
    ensures AllGrow(w, Play(Test(W), b, w, u))
  {
    assert MemberOk(W, w, u.pid);
  }

  lemma SyncKeepsFamily(W: Workload, b: Build, w: World, u: Turn)
    requires Valid(W) && FamilyOk(W, w) && Possible(Test(W), w, u) && (u.move.Joined? || u.move.Finish?)
    ensures FamilyOk(W, Play(Test(W), b, w, u))
  {
    var w' := Play(Test(W), b, w, u);
    SyncOutcome(W, b, w, u);
    SyncGrows(W, b, w, u);
    forall i | 0 <= i < |w'.threads| ensures MemberOk(W, w', i) {
      assert MemberOk(W, w, i);
      RememberedKept(W, w, w', i);
      OwnChildrenKept(W, w, w', i);
      if i == u.pid && u.move.Joined? {
        JoinedOneMore(W, b, w, u);
      } else {
        JoinedKept(W, w, w', i);
      }
    }
  }

  lemma IdleKeepsBalance(W: Workload, b: Build, w: World, u: Turn)
    requires Valid(W) && FamilyOk(W, w) && Balanced(W, w) && Possible(Test(W), w, u) && u.move.Segment?
    requires Spawner(w.threads[u.pid].ctx) || w.threads[u.pid].ctx.code == LAST
    ensures Balanced(W, Play(Test(W), b, w, u))
  {
    var w' := Play(Test(W), b, w, u);
    SegmentOutcome(W, b, w, u);
    CreditsAfterUpdate(W, w.threads, u.pid, w'.threads[u.pid]);
  }

  /** The memset changes what main is about to do, not what it has to contribute. */
  lemma ClearCosts(W: Workload, d: Thread, d': Thread)
    requires d.ctx == At0(CLEAR) && d'.ctx == At0(MAIN) && !d.stage.Gone? && !d'.stage.Gone?
    ensures Credit(W, d) == Credit(W, d')
  {
    if W.threads == 0 {
      assert W.threads * (W.secondary + 1) == 0;
    }
  }

  lemma ClearedBalance(W: Workload, w: World, w': World)
    requires Balanced(W, w) && Uncleared(w) && |w.threads| == 2 && w.threads[0].ctx.code == ROOT
    requires |w'.threads| == 2 && w'.threads[0] == w.threads[0] && w'.threads[1].ctx == At0(MAIN)
    requires Credits(W, w'.threads) == Credits(W, w.threads) && AllCells(W, w'.heap, 0)
    ensures Balanced(W, w')
  {
  }

  lemma {:induction false} ClearKeepsBalance(W: Workload, b: Build, w: World, u: Turn)
    requires Valid(W) && FamilyOk(W, w) && Balanced(W, w) && Possible(Test(W), w, u) && u.move.Segment?
    requires w.threads[u.pid].ctx.code == CLEAR
    ensures Balanced(W, Play(Test(W), b, w, u))
  {
    var w' := Play(Test(W), b, w, u);
    assert Uncleared(w) && u.pid == 1 && w.threads[1].ctx == At0(CLEAR) by {
      assert MemberOk(W, w, u.pid);
    }
    SegmentOutcome(W, b, w, u);
    SegmentEffect(W, CLEAR, w.heap, u.move.accesses, 0);
    CreditsAfterUpdate(W, w.threads, 1, w'.threads[1]);
    ClearCosts(W, w.threads[1], w'.threads[1]);
    ClearedBalance(W, w, w');
  }

  lemma WorkKeepsBalance(W: Workload, b: Build, w: World, u: Turn)
    requires Valid(W) && FamilyOk(W, w) && Balanced(W, w) && Possible(Test(W), w, u) && u.move.Segment?
    requires w.threads[u.pid].ctx.code == FN1 || w.threads[u.pid].ctx.code == FN2
    ensures Balanced(W, Play(Test(W), b, w, u))
  {
    var d := w.threads[u.pid];
    var w' := Play(Test(W), b, w, u);
    SegmentOutcome(W, b, w, u);
    assert MemberOk(W, w, u.pid) && MemberOk(W, w, 0) && !Uncleared(w);
    SegmentEffect(W, d.ctx.code, w.heap, u.move.accesses, Expected(W) - Credits(W, w.threads));
    CreditsAfterUpdate(W, w.threads, u.pid, w'.threads[u.pid]);
    WorkCosts(W, d, w'.threads[u.pid]);
  }

  lemma WorkCosts(W: Workload, d: Thread, d': Thread)
    requires d.ctx.code == FN1 || d.ctx.code == FN2
    requires !d.stage.Gone? && !d'.stage.Gone? && d'.ctx == At0(d.ctx.code + 1)
    ensures Credit(W, d) == Credit(W, d') + 1
  {
  }

  lemma SegmentKeepsBalance(W: Workload, b: Build, w: World, u: Turn)
    requires Valid(W) && FamilyOk(W, w) && Balanced(W, w) && Possible(Test(W), w, u) && u.move.Segment?
    ensures Balanced(W, Play(Test(W), b, w, u))
  {
    var d := w.threads[u.pid];
    assert MemberOk(W, w, u.pid);
    if d.ctx.code == CLEAR {
      ClearKeepsBalance(W, b, w, u);
    } else if d.ctx.code == FN1 || d.ctx.code == FN2 {
      WorkKeepsBalance(W, b, w, u);
    } else {
      IdleKeepsBalance(W, b, w, u);
    }
  }

  /** The root thread has spawned once there are two threads, and spawns no more. */
  lemma RootSpawnsOnce(W: Workload, w: World)
    requires FamilyOk(W, w) && |w.threads| > 1
    ensures |w.threads[0].ctx.stack| == 1 && w.threads[1].parent == 0
  {
    assert MemberOk(W, w, 0) && MemberOk(W, w, 1);
  }

  lemma SpawnKeepsBalance(W: Workload, b: Build, w: World, u: Turn)
    requires Valid(W) && FamilyOk(W, w) && Balanced(W, w) && Possible(Test(W), w, u) && u.move.Spawn?
    ensures Balanced(W, Play(Test(W), b, w, u))
  {
    var w' := Play(Test(W), b, w, u);
    var n := |w.threads|;
    SpawnOutcome(W, b, w, u);
    SpawnSplitsCredit(W, w.threads[u.pid], w'.threads[u.pid], w'.threads[n]);
    CreditsAfterUpdate(W, w.threads, u.pid, w'.threads[u.pid]);
    assert w'.threads[..n] == w.threads[u.pid := w'.threads[u.pid]];
    if n > 1 {
      RootSpawnsOnce(W, w);
      assert |w.threads[u.pid].ctx.stack| < Limit(W, w.threads[u.pid].ctx.code);
      assert u.pid != 0;
    }
  }

  lemma SyncKeepsBalance(W: Workload, b: Build, w: World, u: Turn)
    requires Valid(W) && FamilyOk(W, w) && Balanced(W, w) && Possible(Test(W), w, u)
    requires u.move.Joined? || u.move.Finish?
    ensures Balanced(W, Play(Test(W), b, w, u))
  {
    SyncOutcome(W, b, w, u);
    CreditsAfterUpdate(W, w.threads, u.pid, Play(Test(W), b, w, u).threads[u.pid]);
  }

  lemma {:induction false} TestKeeps(W: Workload, b: Build, h: Heap, turns: seq<Turn>)
    requires Valid(W)
    ensures var w := PlayAll(Test(W), b, Origin(At0(ROOT), h), turns);
            FamilyOk(W, w) && Balanced(W, w)
  {
    if turns == [] {
      var w := Origin(At0(ROOT), h);
      assert w.threads[..0] == [];
      assert Credits(W, w.threads) == Credit(W, w.threads[0]);
    } else {
      var u := turns[|turns| - 1];
      TestKeeps(W, b, h, turns[..|turns| - 1]);
      var w := PlayAll(Test(W), b, Origin(At0(ROOT), h), turns[..|turns| - 1]);
      if Possible(Test(W), w, u) {
        match u.move {
          case Segment(_) =>
            SegmentKeepsFamily(W, b, w, u);
            SegmentKeepsBalance(W, b, w, u);
          case Spawn =>
            SpawnKeepsFamily(W, b, w, u);
            SpawnKeepsBalance(W, b, w, u);
          case _ =>
            SyncKeepsFamily(W, b, w, u);
            SyncKeepsBalance(W, b, w, u);
        }
      }
    }
  }

  // ---- the end of main ----

  /** main has joined all its threads. */
  predicate AllJoined(W: Workload, c: Context) {
    c.code == MAIN && |c.stack| == W.threads && c.pc == W.threads
  }

  /** Then everybody but the root and main has finished. */
  lemma {:induction false} EverybodyFinished(W: Workload, w: World, j: nat)
    requires FamilyOk(W, w) && 2 <= j < |w.threads| && AllJoined(W, w.threads[1].ctx)
    ensures HasFinished(w, j)
  {
    assert MemberOk(W, w, j);
    var p := w.threads[j].parent;
    var m :| 0 <= m < |w.threads[p].ctx.stack| && ChildAt(w.threads[p], m) == j;
    assert MemberOk(W, w, p);
    RootSpawnsOnce(W, w);
    assert MemberOk(W, w, 1);
    if p > 1 {
      EverybodyFinished(W, w, p);
    }
  }

  lemma TotalAtTheEnd(W: Workload, w: World)
    requires Valid(W) && FamilyOk(W, w) && Balanced(W, w)
    requires |w.threads| > 1 && AllJoined(W, w.threads[1].ctx)
    ensures AllCells(W, w.heap, Expected(W))
  {
    RootSpawnsOnce(W, w);
    forall i | 0 <= i < |w.threads| ensures Credit(W, w.threads[i]) == 0 {
      assert MemberOk(W, w, i);
      if i >= 2 {
        EverybodyFinished(W, w, i);
      }
    }
    NoCredits(W, w.threads);
  }

  lemma CommittedTotal(W: Workload, s: State, w: World)
    requires Valid(W) && FamilyOk(W, w) && Balanced(W, w) && Matches(s, w)
    requires |s.procs| > 1 && (s.procs[1].phase.Beginning? || Attempting(s.procs[1].phase))
    requires AllJoined(W, s.procs[1].saved)
    ensures AllCells(W, CommittedHeap(s), Expected(W))
  {
    assert Shows(s.procs[1], w.threads[1]);
    TotalAtTheEnd(W, w);
  }

  /** No lost and no doubled updates: in every run of either build, with any interleaving and any
      number of rollbacks, from the moment main returns from its last join, where `verify` runs,
      every cell of the committed heap holds the number of threads that ran. */
  lemma NoLostUpdates(W: Workload, P: Program, b: Build, h: Heap, schedule: Schedule)
    requires Valid(W) && P == Test(W)
    requires var s := Run(P, b, Initial(At0(ROOT), h), schedule);
             |s.procs| > 1 && (s.procs[1].phase.Beginning? || Attempting(s.procs[1].phase))
             && AllJoined(W, s.procs[1].saved)
    ensures AllCells(W, CommittedHeap(Run(P, b, Initial(At0(ROOT), h), schedule)), Expected(W))
  {
    var turns := Images(P, b, Initial(At0(ROOT), h), schedule);
    Serializable(P, b, At0(ROOT), h, schedule);
    TestKeeps(W, b, h, turns);
    CommittedTotal(W, Run(P, b, Initial(At0(ROOT), h), schedule), PlayAll(P, b, Origin(At0(ROOT), h), turns));
  }
}
