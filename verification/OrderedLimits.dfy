/** Two programs that show what an ordered build does not give: a thread that never touches the heap
    lets its parent overtake an older sibling, and waiting for a sibling can last for ever. */
module OrderedLimits {
  import opened Memory
  import opened Segments
  import opened Tracking
  import opened Protocol
  import opened Invariant
  import opened Serial
  import opened Refinement
  import opened Sequential
  import opened OrderedMode
  import opened Realization

  const CELL := At(0, 0)

  function Pc(k: nat): Context {
    Context(0, k, 0, [])
  }

  function Successor(c: Context, v: int): Context {
    c.(pc := c.pc + 1)
  }

  /** wrapped_main starts main and joins it. */
  const ROOT: nat := 100

  function RootNext(c: Context): Op {
    if c.pc == ROOT then Create(Pc(0)) else if c.pc == ROOT + 1 then Join(0) else Exit
  }

  // ---- overtaking ----

  /** main starts a thread that stores 1, starts one that does nothing, then stores 2. */
  function OvertakingNext(c: Context): Op {
    if c.pc == 0 then Create(Pc(10))
    else if c.pc == 1 then Create(Pc(20))
    else if c.pc == 2 then Store(CELL, 2)
    else if c.pc == 10 then Store(CELL, 1)
    else RootNext(c)
  }

  const OVERTAKING := Program(OvertakingNext, Successor)

  /** The turns so far lead to heap `h` and these threads. */
  predicate Performed(P: Program, b: Build, w: World, turns: seq<Turn>, h: Heap, threads: seq<Thread>) {
    Feasible(P, b, w, turns) && WaitsEndThroughout(P, b, w, turns)
    && PlayAll(P, b, w, turns).heap == h && PlayAll(P, b, w, turns).threads == threads
  }

  lemma OneTurn(P: Program, b: Build, w: World, turns: seq<Turn>, u: Turn) returns (turns': seq<Turn>)
    requires Feasible(P, b, w, turns) && WaitsEndThroughout(P, b, w, turns)
    requires var v := PlayAll(P, b, w, turns); Possible(P, v, u) && WaitEnds(v, {}, u.pid, Awaited(P, v, u))
    ensures Feasible(P, b, w, turns') && WaitsEndThroughout(P, b, w, turns')
    ensures PlayAll(P, b, w, turns') == Play(P, b, PlayAll(P, b, w, turns), u)
  {
    turns' := turns + [u];
    assert turns'[..|turns'| - 1] == turns;
  }

  /** A thread passes a segment without accesses. */
  lemma PassTurn(P: Program, b: Build, w: World, turns: seq<Turn>, i: nat) returns (turns': seq<Turn>)
    requires Feasible(P, b, w, turns) && WaitsEndThroughout(P, b, w, turns)
    requires var v := PlayAll(P, b, w, turns);
             i < |v.threads| && v.threads[i].stage.Ready? && AtSync(P, v.threads[i].ctx)
    ensures Feasible(P, b, w, turns') && WaitsEndThroughout(P, b, w, turns')
    ensures var v, u := PlayAll(P, b, w, turns), PlayAll(P, b, w, turns');
            u.heap == v.heap && u.threads == v.threads[i := v.threads[i].(stage := Done)]
  {
    var v := PlayAll(P, b, w, turns);
    assert DirectRun(P, v.threads[i].ctx, v.heap, 0) == Machine(v.threads[i].ctx, v.heap, {});
    turns' := OneTurn(P, b, w, turns, Turn(i, Segment(0)));
  }

  /** A thread without accesses before its next create reaches it and forks. */
  lemma SpawnTurn(P: Program, b: Build, w: World, turns: seq<Turn>, i: nat) returns (turns': seq<Turn>)
    requires Feasible(P, b, w, turns) && WaitsEndThroughout(P, b, w, turns)
    requires var v := PlayAll(P, b, w, turns);
             i < |v.threads| && v.threads[i].stage.Ready? && P.next(v.threads[i].ctx).Create?
    ensures Feasible(P, b, w, turns') && WaitsEndThroughout(P, b, w, turns')
    ensures var v, u := PlayAll(P, b, w, turns), PlayAll(P, b, w, turns');
            var d := v.threads[i];
            u.heap == v.heap
            && u.threads == v.threads[i := Thread(d.parent, |v.threads|, d.handles + [|v.threads|],
                                                  P.after(d.ctx, |d.handles|), Ready, false)]
                            + [Thread(i, if b.Ordered? then d.predecessor else 0, d.handles, P.next(d.ctx).child, Ready, false)]
  {
    turns' := PassTurn(P, b, w, turns, i);
    turns' := OneTurn(P, b, w, turns', Turn(i, Spawn));
  }

  /** A thread without accesses before its exit leaves. */
  lemma LeaveTurn(P: Program, b: Build, w: World, turns: seq<Turn>, i: nat) returns (turns': seq<Turn>)
    requires Feasible(P, b, w, turns) && WaitsEndThroughout(P, b, w, turns)
    requires var v := PlayAll(P, b, w, turns);
             i < |v.threads| && !v.threads[i].stage.Gone? && P.next(v.threads[i].ctx).Exit?
    ensures Feasible(P, b, w, turns') && WaitsEndThroughout(P, b, w, turns')
    ensures var v, u := PlayAll(P, b, w, turns), PlayAll(P, b, w, turns');
            u.heap == v.heap && u.threads == v.threads[i := v.threads[i].(stage := Stage.Gone)]
  {
    turns' := turns;
    if PlayAll(P, b, w, turns).threads[i].stage.Ready? {
      turns' := PassTurn(P, b, w, turns, i);
    }
    turns' := OneTurn(P, b, w, turns', Turn(i, Finish));
  }

  /** The threads of a state in which wrapped_main has started main. */
  function WithRoot(threads: seq<Thread>): seq<Thread> {
    [Thread(0, 1, [1], Pc(ROOT + 1), Ready, false)] + threads
  }

  lemma OvertakingMainStarts(h: Heap) returns (turns: seq<Turn>)
    ensures Performed(OVERTAKING, Ordered, Origin(Pc(ROOT), h), turns, h, WithRoot([Thread(0, 0, [], Pc(0), Ready, false)]))
  {
    var w := Origin(Pc(ROOT), h);
    turns := SpawnTurn(OVERTAKING, Ordered, w, [], 0);
    assert w.threads[0].handles + [1] == [1];
  }

  lemma OvertakingFirst(h: Heap) returns (turns: seq<Turn>)
    ensures Performed(OVERTAKING, Ordered, Origin(Pc(ROOT), h), turns, h, WithRoot(
              [Thread(0, 2, [2], Pc(1), Ready, false), Thread(1, 0, [], Pc(10), Ready, false)]))
  {
    turns := OvertakingMainStarts(h);
    turns := SpawnTurn(OVERTAKING, Ordered, Origin(Pc(ROOT), h), turns, 1);
    assert [] + [2] == [2];
  }

  lemma OvertakingSecond(h: Heap) returns (turns: seq<Turn>)
    ensures Performed(OVERTAKING, Ordered, Origin(Pc(ROOT), h), turns, h, WithRoot(
              [Thread(0, 3, [2, 3], Pc(2), Ready, false), Thread(1, 0, [], Pc(10), Ready, false),
               Thread(1, 2, [2], Pc(20), Ready, false)]))
  {
    turns := OvertakingFirst(h);
    turns := SpawnTurn(OVERTAKING, Ordered, Origin(Pc(ROOT), h), turns, 1);
    assert [2] + [3] == [2, 3];
  }

  /** main has started both threads and the idle one has left. */
  lemma OvertakingStart(h: Heap) returns (turns: seq<Turn>)
    ensures Performed(OVERTAKING, Ordered, Origin(Pc(ROOT), h), turns, h, WithRoot(
              [Thread(0, 3, [2, 3], Pc(2), Ready, false), Thread(1, 0, [], Pc(10), Ready, false),
               Thread(1, 2, [2], Pc(20), Stage.Gone, false)]))
  {
    turns := OvertakingSecond(h);
    turns := LeaveTurn(OVERTAKING, Ordered, Origin(Pc(ROOT), h), turns, 3);
  }

  /** A thread without predecessor, or with a finished child as its predecessor, runs a segment that
      stores once. */
  lemma StoreTurn(P: Program, b: Build, w: World, turns: seq<Turn>, i: nat, x: int) returns (turns': seq<Turn>)
    requires Feasible(P, b, w, turns) && WaitsEndThroughout(P, b, w, turns)
    requires var v := PlayAll(P, b, w, turns);
             i < |v.threads| && v.threads[i].stage.Ready? && P.next(v.threads[i].ctx) == Store(CELL, x)
             && AtSync(P, P.after(v.threads[i].ctx, 0))
             && (v.threads[i].predecessor == 0 ||
                 (HasFinished(v, v.threads[i].predecessor) && v.threads[v.threads[i].predecessor].parent == i))
    ensures Feasible(P, b, w, turns') && WaitsEndThroughout(P, b, w, turns')
    ensures var v, u := PlayAll(P, b, w, turns), PlayAll(P, b, w, turns');
            var d := v.threads[i];
            u.heap == Write(v.heap, CELL, x)
            && u.threads == v.threads[i := d.(ctx := P.after(d.ctx, 0), stage := Done, waited := true)]
  {
    var v := PlayAll(P, b, w, turns);
    assert DirectRun(P, v.threads[i].ctx, v.heap, 0) == Machine(v.threads[i].ctx, v.heap, {});
    turns' := OneTurn(P, b, w, turns, Turn(i, Segment(1)));
  }

  /** main stores 2 while the first thread has not begun. */
  lemma OvertakingMain(h: Heap) returns (turns: seq<Turn>)
    ensures Performed(OVERTAKING, Ordered, Origin(Pc(ROOT), h), turns, Write(h, CELL, 2), WithRoot(
              [Thread(0, 3, [2, 3], Pc(3), Done, true), Thread(1, 0, [], Pc(10), Ready, false),
               Thread(1, 2, [2], Pc(20), Stage.Gone, false)]))
  {
    turns := OvertakingStart(h);
    turns := StoreTurn(OVERTAKING, Ordered, Origin(Pc(ROOT), h), turns, 1, 2);
  }

  lemma OvertakingStores(h: Heap) returns (turns: seq<Turn>)
    ensures Performed(OVERTAKING, Ordered, Origin(Pc(ROOT), h), turns, Write(Write(h, CELL, 2), CELL, 1), WithRoot(
              [Thread(0, 3, [2, 3], Pc(3), Done, true), Thread(1, 0, [], Pc(11), Done, true),
               Thread(1, 2, [2], Pc(20), Stage.Gone, false)]))
  {
    turns := OvertakingMain(h);
    turns := StoreTurn(OVERTAKING, Ordered, Origin(Pc(ROOT), h), turns, 2, 1);
  }

  lemma OvertakingMainLeaves(h: Heap) returns (turns: seq<Turn>)
    ensures Performed(OVERTAKING, Ordered, Origin(Pc(ROOT), h), turns, Write(Write(h, CELL, 2), CELL, 1), WithRoot(
              [Thread(0, 3, [2, 3], Pc(3), Stage.Gone, true), Thread(1, 0, [], Pc(11), Done, true),
               Thread(1, 2, [2], Pc(20), Stage.Gone, false)]))
  {
    turns := OvertakingStores(h);
    turns := LeaveTurn(OVERTAKING, Ordered, Origin(Pc(ROOT), h), turns, 1);
  }

  const FINISHED: seq<Thread> :=
    [Thread(0, 3, [2, 3], Pc(3), Stage.Gone, true), Thread(1, 0, [], Pc(11), Stage.Gone, true),
     Thread(1, 2, [2], Pc(20), Stage.Gone, false)]

  lemma OvertakingLeaves(h: Heap) returns (turns: seq<Turn>)
    ensures Performed(OVERTAKING, Ordered, Origin(Pc(ROOT), h), turns, Write(Write(h, CELL, 2), CELL, 1), WithRoot(FINISHED))
  {
    turns := OvertakingMainLeaves(h);
    ghost var threads := PlayAll(OVERTAKING, Ordered, Origin(Pc(ROOT), h), turns).threads;
    assert threads[2 := threads[2].(stage := Stage.Gone)] == WithRoot(FINISHED);
    turns := LeaveTurn(OVERTAKING, Ordered, Origin(Pc(ROOT), h), turns, 2);
  }

  lemma OvertakingPass(h: Heap) returns (turns: seq<Turn>)
    ensures Performed(OVERTAKING, Ordered, Origin(Pc(ROOT), h), turns, Write(Write(h, CELL, 2), CELL, 1),
                      [Thread(0, 1, [1], Pc(ROOT + 1), Done, false)] + FINISHED)
  {
    turns := OvertakingLeaves(h);
    var root := Thread(0, 1, [1], Pc(ROOT + 1), Ready, false);
    assert ([root] + FINISHED)[0 := root.(stage := Done)] == [root.(stage := Done)] + FINISHED;
    turns := PassTurn(OVERTAKING, Ordered, Origin(Pc(ROOT), h), turns, 0);
  }

  /** wrapped_main joins main. */
  lemma OvertakingJoin(h: Heap) returns (turns: seq<Turn>)
    ensures Performed(OVERTAKING, Ordered, Origin(Pc(ROOT), h), turns, Write(Write(h, CELL, 2), CELL, 1),
                      [Thread(0, 1, [1], Pc(ROOT + 2), Ready, true)] + FINISHED)
  {
    turns := OvertakingPass(h);
    turns := OneTurn(OVERTAKING, Ordered, Origin(Pc(ROOT), h), turns, Turn(0, Joined));
  }

  lemma OvertakingEnd(h: Heap) returns (turns: seq<Turn>)
    ensures Performed(OVERTAKING, Ordered, Origin(Pc(ROOT), h), turns, Write(Write(h, CELL, 2), CELL, 1),
                      [Thread(0, 1, [1], Pc(ROOT + 2), Stage.Gone, true)] + FINISHED)
  {
    turns := OvertakingJoin(h);
    var root := Thread(0, 1, [1], Pc(ROOT + 2), Ready, true);
    assert ([root] + FINISHED)[0 := root.(stage := Stage.Gone)] == [root.(stage := Stage.Gone)] + FINISHED;
    turns := LeaveTurn(OVERTAKING, Ordered, Origin(Pc(ROOT), h), turns, 0);
  }

  /** The elided program after `n` more steps from `q` is at `q'`. */
  predicate Calling(q: Calls, n: nat, q': Calls) {
    CallRun(OVERTAKING, q, n) == q'
  }

  lemma OneCall(q: Calls, n: nat, q': Calls)
    requires Calling(CallStep(OVERTAKING, q), n, q')
    ensures Calling(q, n + 1, q')
  {
  }

  lemma ElidedOvertaking(h: Heap, final: Heap)
    requires Returns(OVERTAKING, h, [Frame(Pc(ROOT), 0)], final)
    ensures Read(final, CELL) == 2
  {
    var P := OVERTAKING;
    var h1, h2 := Write(h, CELL, 1), Write(Write(h, CELL, 1), CELL, 2);
    var root, last := Frame(Pc(ROOT + 1), 1), Frame(Pc(ROOT + 2), 1);
    var q0 := Calls(h, [Frame(Pc(ROOT), 0)]);
    var q1 := CallStep(P, q0);
    assert q1 == Calls(h, [Frame(Pc(0), 0), root]);
    var q2 := CallStep(P, q1);
    assert q2 == Calls(h, [Frame(Pc(10), 0), Frame(Pc(1), 1), root]);
    var q3 := CallStep(P, q2);
    assert q3 == Calls(h1, [Frame(Pc(11), 0), Frame(Pc(1), 1), root]);
    var q4 := CallStep(P, q3);
    assert q4 == Calls(h1, [Frame(Pc(1), 1), root]);
    var q5 := CallStep(P, q4);
    assert q5 == Calls(h1, [Frame(Pc(20), 1), Frame(Pc(2), 2), root]);
    ElidedEnding(h1, q5);
    OneCall(q4, 5, Calls(h2, []));
    OneCall(q3, 6, Calls(h2, []));
    OneCall(q2, 7, Calls(h2, []));
    OneCall(q1, 8, Calls(h2, []));
    OneCall(q0, 9, Calls(h2, []));
    ReturnsOnce(P, h, [Frame(Pc(ROOT), 0)], h2, final);
  }

  lemma ElidedEnding(h1: Heap, q5: Calls)
    requires q5 == Calls(h1, [Frame(Pc(20), 1), Frame(Pc(2), 2), Frame(Pc(ROOT + 1), 1)])
    ensures Calling(q5, 5, Calls(Write(h1, CELL, 2), []))
  {
    var P, h2 := OVERTAKING, Write(h1, CELL, 2);
    var q6 := CallStep(P, q5);
    assert q6 == Calls(h1, [Frame(Pc(2), 2), Frame(Pc(ROOT + 1), 1)]);
    var q7 := CallStep(P, q6);
    assert q7 == Calls(h2, [Frame(Pc(3), 2), Frame(Pc(ROOT + 1), 1)]);
    var q8 := CallStep(P, q7);
    assert q8 == Calls(h2, [Frame(Pc(ROOT + 1), 1)]);
    var q9 := CallStep(P, q8);
    assert q9 == Calls(h2, [Frame(Pc(ROOT + 2), 1)]);
    var q10 := CallStep(P, q9);
    assert q10 == Calls(h2, []);
    assert Calling(q10, 0, q10);
    OneCall(q9, 0, q10);
    assert Calling(q9, 1, q10);
    OneCall(q8, 1, q10);
    OneCall(q7, 2, q10);
    OneCall(q6, 3, q10);
    OneCall(q5, 4, q10);
  }

  lemma EverybodyLeft(s: State, w: World)
    requires Matches(s, w) && forall i :: 0 <= i < |w.threads| ==> w.threads[i].stage.Gone?
    ensures forall i :: 0 <= i < |s.procs| ==> s.procs[i].phase.Exited?
  {
    forall i | 0 <= i < |s.procs| ensures s.procs[i].phase.Exited? {
      assert Shows(s.procs[i], w.threads[i]);
    }
  }

  /** Sequential semantics fails without the condition on leaving: a complete run of an ordered
      build ends with a heap the elided program does not return. */
  lemma OvertakingIsNotSequential(h: Heap) returns (schedule: Schedule)
    ensures var s := Run(OVERTAKING, Ordered, Initial(Pc(ROOT), h), schedule);
            && (forall i :: 0 <= i < |s.procs| ==> s.procs[i].phase.Exited?)
            && !Returns(OVERTAKING, h, [Frame(Pc(ROOT), 0)], s.heap)
  {
    var turns := OvertakingEnd(h);
    var s := SerialIsRealizable(OVERTAKING, Ordered, Pc(ROOT), h, turns);
    schedule :| Run(OVERTAKING, Ordered, Initial(Pc(ROOT), h), schedule) == s;
    EverybodyLeft(s, PlayAll(OVERTAKING, Ordered, Origin(Pc(ROOT), h), turns));
    if Returns(OVERTAKING, h, [Frame(Pc(ROOT), 0)], s.heap) {
      ElidedOvertaking(h, s.heap);
    }
  }

  // ---- waiting for ever ----

  /** main starts two threads and stores to the heap before it joins them, oldest first; the
      second thread loads from the heap. */
  function HangingNext(c: Context): Op {
    if c.pc == 0 then Create(Pc(10))
    else if c.pc == 1 then Create(Pc(20))
    else if c.pc == 2 then Store(CELL, 2)
    else if c.pc == 3 then Join(0)
    else if c.pc == 4 then Join(1)
    else if c.pc == 20 then Load(CELL)
    else RootNext(c)
  }

  const HANGING := Program(HangingNext, Successor)

  lemma {:induction false} OneEvent(P: Program, b: Build, s: State, schedule: Schedule, e: Event) returns (schedule': Schedule)
    requires Enabled(P, Run(P, b, s, schedule), e)
    ensures Run(P, b, s, schedule') == Apply(P, b, Run(P, b, s, schedule), e)
  {
    schedule' := schedule + [e];
    assert schedule'[..|schedule'| - 1] == schedule;
  }

  /** Process `i` is at `c`, between two segments. */
  predicate Fresh(s: State, i: nat, parent: nat, predecessor: nat, handles: seq<nat>, c: Context) {
    i < |s.procs| &&
    var p := s.procs[i];
    p.parent == parent && p.predecessor == predecessor && p.handles == handles
    && p.saved == c && p.attempt == Start(c) && p.phase.Beginning?
  }

  /** Nothing has been committed or reaped yet. */
  predicate Untouched(s: State, h: Heap, n: nat) {
    s.mutex.Free? && s.versions == map[] && s.reaped == {} && s.heap == h && |s.procs| == n
  }

  /** A process passes a segment without accesses. */
  lemma PassEmpty(P: Program, s: State, schedule: Schedule, i: nat) returns (schedule': Schedule)
    requires var t := Run(P, Ordered, s, schedule);
             t.mutex.Free? && t.versions == map[] && i < |t.procs| && t.procs[i].phase.Beginning?
             && t.procs[i].attempt == Start(t.procs[i].saved) && AtSync(P, t.procs[i].saved)
    ensures var t, u := Run(P, Ordered, s, schedule), Run(P, Ordered, s, schedule');
            u == t.(procs := t.procs[i := t.procs[i].(tracker := Begun(map[]), phase := Synced, accesses := 0, since := |t.log|)],
                    log := t.log + [Commit(i, {})])
  {
    schedule' := OneEvent(P, Ordered, s, schedule, Event(i, Snapshot));
    schedule' := OneEvent(P, Ordered, s, schedule', Event(i, CommitEmpty));
  }

  /** wrapped_main waits for main, which is still alive. */
  predicate RootWaits(s: State) {
    |s.procs| > 1 && s.procs[0].phase.Synced? && s.procs[0].attempt.ctx == Pc(ROOT + 1) && s.procs[0].handles == [1]
  }

  lemma {:induction false} HangingRoot(h: Heap) returns (schedule: Schedule)
    ensures var s := Run(HANGING, Ordered, Initial(Pc(ROOT), h), schedule);
            Untouched(s, h, 2) && RootWaits(s) && Fresh(s, 1, 0, 0, [], Pc(0))
  {
    schedule := PassEmpty(HANGING, Initial(Pc(ROOT), h), [], 0);
    schedule := OneEvent(HANGING, Ordered, Initial(Pc(ROOT), h), schedule, Event(0, Fork));
    schedule := PassEmpty(HANGING, Initial(Pc(ROOT), h), schedule, 0);
  }

  lemma {:induction false} HangingFork(h: Heap) returns (schedule: Schedule)
    ensures var s := Run(HANGING, Ordered, Initial(Pc(ROOT), h), schedule);
            Untouched(s, h, 3) && RootWaits(s) && Fresh(s, 1, 0, 2, [2], Pc(1)) && Fresh(s, 2, 1, 0, [], Pc(10))
  {
    schedule := HangingRoot(h);
    schedule := PassEmpty(HANGING, Initial(Pc(ROOT), h), schedule, 1);
    schedule := OneEvent(HANGING, Ordered, Initial(Pc(ROOT), h), schedule, Event(1, Fork));
  }

  lemma {:induction false} HangingForks(h: Heap) returns (schedule: Schedule)
    ensures var s := Run(HANGING, Ordered, Initial(Pc(ROOT), h), schedule);
            Untouched(s, h, 4) && RootWaits(s) && Fresh(s, 1, 0, 3, [2, 3], Pc(2))
            && Fresh(s, 2, 1, 0, [], Pc(10)) && Fresh(s, 3, 1, 2, [2], Pc(20))
  {
    schedule := HangingFork(h);
    schedule := PassEmpty(HANGING, Initial(Pc(ROOT), h), schedule, 1);
    schedule := OneEvent(HANGING, Ordered, Initial(Pc(ROOT), h), schedule, Event(1, Fork));
  }

  predicate FirstLeft(s: State) {
    |s.procs| == 4 && s.procs[2].phase.Exited? && s.procs[2].parent == 1
  }

  /** main has started both threads, and the first has left. */
  lemma {:induction false} HangingStart(h: Heap) returns (schedule: Schedule)
    ensures var s := Run(HANGING, Ordered, Initial(Pc(ROOT), h), schedule);
            Untouched(s, h, 4) && RootWaits(s) && Fresh(s, 1, 0, 3, [2, 3], Pc(2)) && FirstLeft(s)
            && Fresh(s, 3, 1, 2, [2], Pc(20))
  {
    schedule := HangingForks(h);
    schedule := PassEmpty(HANGING, Initial(Pc(ROOT), h), schedule, 2);
    schedule := OneEvent(HANGING, Ordered, Initial(Pc(ROOT), h), schedule, Event(2, Leave));
  }

  /** main is about to store and has recorded `k` so far. */
  predicate MainStoring(s: State, k: Tracker) {
    RootWaits(s) && FirstLeft(s) && Fresh(s, 3, 1, 2, [2], Pc(20))
    && s.procs[1].phase.Running? && s.procs[1].predecessor == 3 && s.procs[1].attempt == Start(Pc(2)) && s.procs[1].tracker == k
  }

  lemma {:induction false} HangingSnapshot(h: Heap) returns (schedule: Schedule)
    ensures var s := Run(HANGING, Ordered, Initial(Pc(ROOT), h), schedule);
            Untouched(s, h, 4) && MainStoring(s, Begun(map[]))
  {
    schedule := HangingStart(h);
    schedule := OneEvent(HANGING, Ordered, Initial(Pc(ROOT), h), schedule, Event(1, Snapshot));
  }

  /** main has faulted twice and may store. */
  lemma {:induction false} HangingFaults(h: Heap) returns (schedule: Schedule)
    ensures var s := Run(HANGING, Ordered, Initial(Pc(ROOT), h), schedule);
            Untouched(s, h, 4) && MainStoring(s, Tracker(map[0 := 0], map[0 := 1], map[]))
  {
    var s := Initial(Pc(ROOT), h);
    schedule := HangingSnapshot(h);
    schedule := OneEvent(HANGING, Ordered, s, schedule, Event(1, Fault));
    assert MainStoring(Run(HANGING, Ordered, s, schedule), Tracker(map[0 := 0], map[], map[]));
    schedule := OneEvent(HANGING, Ordered, s, schedule, Event(1, Fault));
  }

  /** A process waits in its commit. */
  predicate Waiting(s: State, i: nat, predecessor: nat) {
    i < |s.procs| && s.procs[i].phase.AwaitingPredecessor? && s.procs[i].predecessor == predecessor
  }

  /** main stores and waits in its commit. */
  lemma {:induction false} HangingMain(h: Heap) returns (schedule: Schedule)
    ensures var s := Run(HANGING, Ordered, Initial(Pc(ROOT), h), schedule);
            Untouched(s, h, 4) && RootWaits(s) && FirstLeft(s) && Fresh(s, 3, 1, 2, [2], Pc(20)) && Waiting(s, 1, 3)
  {
    schedule := HangingFaults(h);
    schedule := OneEvent(HANGING, Ordered, Initial(Pc(ROOT), h), schedule, Event(1, Touch));
    schedule := OneEvent(HANGING, Ordered, Initial(Pc(ROOT), h), schedule, Event(1, EndSegment));
  }

  /** The second thread has faulted and may load. */
  lemma {:induction false} HangingSecond(h: Heap) returns (schedule: Schedule)
    ensures var s := Run(HANGING, Ordered, Initial(Pc(ROOT), h), schedule);
            Untouched(s, h, 4) && RootWaits(s) && FirstLeft(s) && Waiting(s, 1, 3)
            && s.procs[3].phase.Running? && s.procs[3].predecessor == 2 && s.procs[3].parent == 1
            && s.procs[3].attempt == Start(Pc(20)) && 0 in s.procs[3].tracker.readSet
  {
    schedule := HangingMain(h);
    schedule := OneEvent(HANGING, Ordered, Initial(Pc(ROOT), h), schedule, Event(3, Snapshot));
    schedule := OneEvent(HANGING, Ordered, Initial(Pc(ROOT), h), schedule, Event(3, Fault));
  }

  /** It loads and waits in its commit as well. */
  lemma {:induction false} HangingEnd(h: Heap) returns (schedule: Schedule)
    ensures var s := Run(HANGING, Ordered, Initial(Pc(ROOT), h), schedule);
            Untouched(s, h, 4) && RootWaits(s) && FirstLeft(s) && Waiting(s, 1, 3) && Waiting(s, 3, 2) && s.procs[3].parent == 1
  {
    schedule := HangingSecond(h);
    schedule := OneEvent(HANGING, Ordered, Initial(Pc(ROOT), h), schedule, Event(3, Touch));
    schedule := OneEvent(HANGING, Ordered, Initial(Pc(ROOT), h), schedule, Event(3, EndSegment));
  }

  /** The second thread waits until the first is reaped, which only main can do; main waits for the
      second thread, and wrapped_main for main. No step is possible, although three processes are
      alive. */
  lemma {:induction false} OrderedBuildCanHang(h: Heap) returns (schedule: Schedule)
    ensures var s := Run(HANGING, Ordered, Initial(Pc(ROOT), h), schedule);
            && (exists i :: 0 <= i < |s.procs| && !s.procs[i].phase.Exited?)
            && (forall e :: !Enabled(HANGING, s, e))
  {
    schedule := HangingEnd(h);
    var s := Run(HANGING, Ordered, Initial(Pc(ROOT), h), schedule);
    forall e ensures !Enabled(HANGING, s, e) {
      assert e.pid < |s.procs| ==> e.pid == 0 || e.pid == 1 || e.pid == 2 || e.pid == 3;
    }
  }
}
