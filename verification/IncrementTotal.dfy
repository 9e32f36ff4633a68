/** The increment workload runs to its end: total correctness of example/test.cc. */
module IncrementTotal {
  import opened Memory
  import opened Segments
  import opened Protocol
  import opened Invariant
  import opened Serial
  import opened Refinement
  import opened Increment
  import Termination
  import Deadlock

  /** What is left to do from the start of each piece of code. */
  function Cost(W: Workload, code: nat): nat
    decreases LAST - code
  {
    if code >= LAST then 0
    else if code == CLEAR then |W.cells| + Cost(W, code + 1) + 1
    else if code == FN1 || code == FN2 then 2 * |W.cells| + Cost(W, code + 1) + 1
    else Limit(W, code) * (Cost(W, code + 1) + 2) + Limit(W, code)
  }

  function Less(x: nat, y: nat): nat {
    if x < y then y - x else 0
  }

  function Rank(W: Workload, c: Context): nat {
    if Spawner(c) then
      var limit := Limit(W, c.code);
      Less(|c.stack|, limit) * (Cost(W, c.code + 1) + 2) + Less(c.pc, if |c.stack| < limit then limit else |c.stack|)
    else if c.code == CLEAR then Less(c.pc, |W.cells|) + Cost(W, c.code + 1) + 1
    else if c.code == FN1 || c.code == FN2 then
      (if c.pc < |W.cells| then 2 * (|W.cells| - c.pc) - (if c.stack == [] then 0 else 1) else 0) + Cost(W, c.code + 1) + 1
    else 0
  }

  lemma RankAtStart(W: Workload, code: nat)
    ensures Rank(W, At0(code)) == Cost(W, code)
  {
    if Spawner(At0(code)) {
      assert Less(0, Limit(W, code)) == Limit(W, code);
    }
  }

  lemma {:induction false} SpawnerShrinks(W: Workload, c: Context, v: int)
    requires Spawner(c)
    ensures match Code(W, c)
            case Create(d) => Rank(W, After(W, c, v)) + Rank(W, d) < Rank(W, c)
            case Exit => true
            case _ => Rank(W, After(W, c, v)) < Rank(W, c)
  {
    var limit := Limit(W, c.code);
    RankAtStart(W, c.code + 1);
    if |c.stack| < limit {
      var left, each := limit - |c.stack|, Cost(W, c.code + 1) + 2;
      assert left * each == (left - 1) * each + each;
    }
  }

  lemma WorkShrinks(W: Workload, c: Context, v: int)
    requires !Spawner(c) && IsAccess(Code(W, c))
    ensures Rank(W, After(W, c, v)) < Rank(W, c)
  {
    RankAtStart(W, c.code + 1);
  }

  lemma {:induction false} TestIsBounded(W: Workload)
    ensures Termination.Bounded(Test(W), c => Rank(W, c))
  {
    forall c: Context, v: int
      ensures match Test(W).next(c)
              case Create(d) => Rank(W, Test(W).after(c, v)) + Rank(W, d) < Rank(W, c)
              case Exit => true
              case _ => Rank(W, Test(W).after(c, v)) < Rank(W, c)
    {
      if Spawner(c) {
        SpawnerShrinks(W, c, v);
      } else if IsAccess(Code(W, c)) {
        WorkShrinks(W, c, v);
      }
    }
  }

  /** No run of the workload goes on for ever, in either build. */
  lemma TestTerminates(W: Workload, b: Build, h: Heap, events: nat -> Event)
    ensures exists m ::
              !Enabled(Test(W), Termination.After(Test(W), b, Initial(At0(ROOT), h), events, m), events(m))
  {
    TestIsBounded(W);
    Termination.EveryRunIsFinite(Test(W), b, c => Rank(W, c), At0(ROOT), h, events);
  }

  lemma TestJoinsOwnChildren(W: Workload, s: State, w: World)
    requires FamilyOk(W, w) && Matches(s, w)
    ensures Deadlock.JoinsOwnChildren(Test(W), s)
  {
    forall i | 0 <= i < |s.procs| && s.procs[i].phase.Synced? && Next(Test(W), s.procs[i]).Join?
      ensures var handle := Next(Test(W), s.procs[i]).handle;
              handle < |s.procs[i].handles| && s.procs[i].handles[handle] < |s.procs|
              && s.procs[s.procs[i].handles[handle]].parent == i
    {
      var d := w.threads[i];
      assert Shows(s.procs[i], d) && MemberOk(W, w, i);
      assert Code(W, d.ctx).Join? && Spawner(d.ctx);
      var child := ChildAt(d, d.ctx.pc);
      assert child < |w.threads| && w.threads[child].parent == i;
      assert Shows(s.procs[child], w.threads[child]);
    }
  }

  lemma TotalWhenAllGone(W: Workload, w: World)
    requires Valid(W) && FamilyOk(W, w) && Balanced(W, w)
    requires forall i :: 0 <= i < |w.threads| ==> w.threads[i].stage.Gone?
    ensures AllCells(W, w.heap, Expected(W))
  {
    NoCredits(W, w.threads);
    assert MemberOk(W, w, 0);
    assert |w.threads[0].ctx.stack| == 1;
    var child := ChildAt(w.threads[0], 0);
    assert child < |w.threads|;
  }

  /** A run of the NO_ORDER build that cannot go on has finished every process, and every cell of the
      shared heap holds the number of threads that ran. */
  lemma TestEndsWithTotal(W: Workload, h: Heap, schedule: Schedule)
    requires Valid(W)
    requires forall e :: !Enabled(Test(W), Run(Test(W), NoOrder, Initial(At0(ROOT), h), schedule), e)
    ensures var s := Run(Test(W), NoOrder, Initial(At0(ROOT), h), schedule);
            (forall i :: 0 <= i < |s.procs| ==> s.procs[i].phase.Exited?) && AllCells(W, s.heap, Expected(W))
  {
    var P := Test(W);
    var s := Run(P, NoOrder, Initial(At0(ROOT), h), schedule);
    var turns := Images(P, NoOrder, Initial(At0(ROOT), h), schedule);
    var w := PlayAll(P, NoOrder, Origin(At0(ROOT), h), turns);
    Serializable(P, NoOrder, At0(ROOT), h, schedule);
    TestKeeps(W, NoOrder, h, turns);
    TestJoinsOwnChildren(W, s, w);
    if exists j :: 0 <= j < |s.procs| && !s.procs[j].phase.Exited? {
      Deadlock.NoDeadlock(P, At0(ROOT), h, schedule);
    }
    forall i | 0 <= i < |w.threads| ensures w.threads[i].stage.Gone? {
      assert Shows(s.procs[i], w.threads[i]);
    }
    TotalWhenAllGone(W, w);
  }
}
