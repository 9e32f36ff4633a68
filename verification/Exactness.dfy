/** The serial executions whose waits can end are exactly what the runs of the runtime amount to. */
module Exactness {
  import opened Memory
  import opened Segments
  import opened Tracking
  import opened Protocol
  import opened Invariant
  import opened Serial
  import opened Refinement
  import opened Reaping
  import opened Realization
  import VersionCounts

  /** `x` has been reaped by an attempt of its parent that has not committed; only the parent can wait
      for it before a later attempt does. */
  predicate ReapedEarly(P: Program, s: State, x: nat) {
    0 < x < |s.procs| && s.procs[x].parent < |s.procs| &&
    var p := s.procs[s.procs[x].parent];
    p.predecessor == x && IsAccess(P.next(p.saved)) && (p.phase.Beginning? || Attempting(p.phase) || p.phase.Aborting?)
  }

  predicate ReapedInTime(P: Program, s: State, collected: set<nat>) {
    forall x :: x in s.reaped ==> x in collected || ReapedEarly(P, s, x)
  }

  predicate WaitsEnded(s: State, w: World, collected: set<nat>) {
    forall i :: 0 <= i < |s.procs| && (s.procs[i].phase.AwaitingMutex? || s.procs[i].phase.Validating?)
                ==> WaitEnds(w, collected, i, s.procs[i].predecessor)
  }

  lemma OverMeansEnds(P: Program, s: State, w: World, collected: set<nat>, i: nat, t: nat)
    requires WaitersOk(P, s) && Matches(s, w) && ReapedInTime(P, s, collected)
    requires i < |s.procs| && References(s.procs[i], t) && WaitOver(s, i, t)
    ensures WaitEnds(w, collected, i, t)
  {
    if t != 0 {
      var p := s.procs[t].parent;
      assert Shows(s.procs[t], w.threads[t]);
      assert p < |s.procs| ==> Shows(s.procs[p], w.threads[p]);
      if t in s.reaped && t !in collected && p != i {
        assert AwaitsChild(s, p) && SoleWaiter(s, p, i);
      }
    }
  }

  /** A wait that can end still can later. */
  lemma WaitEndsLater(P: Program, b: Build, w: World, u: Turn, collected: set<nat>, more: set<nat>, i: nat, t: nat)
    requires Possible(P, w, u) && WaitEnds(w, collected, i, t)
    ensures WaitEnds(Play(P, b, w, u), collected + more, i, t)
  {
  }

  /** What process `e.pid` waits for in the turn its step amounts to. */
  lemma AwaitedByImage(P: Program, s: State, w: World, e: Event)
    requires Inv(P, s) && WaitersOk(P, s) && Matches(s, w) && Enabled(P, s, e) && Image(P, s, e) != []
    ensures var p := s.procs[e.pid];
            Awaited(P, w, Image(P, s, e)[0]) ==
              if e.action.Validate? then p.predecessor else if e.action.JoinDone? then p.handles[Next(P, p).handle] else 0
    ensures e.action.CommitEmpty? ==> AtSync(P, s.procs[e.pid].saved)
  {
    assert Shows(s.procs[e.pid], w.threads[e.pid]) && BeginsOk(P, s.procs[e.pid]);
  }

  lemma ImageEnds(P: Program, s: State, w: World, collected: set<nat>, e: Event)
    requires Inv(P, s) && WaitersOk(P, s) && Matches(s, w) && ReapedInTime(P, s, collected) && WaitsEnded(s, w, collected)
    requires Enabled(P, s, e) && Image(P, s, e) != []
    ensures WaitEnds(w, collected, e.pid, Awaited(P, w, Image(P, s, e)[0]))
  {
    AwaitedByImage(P, s, w, e);
    if e.action.JoinDone? {
      OverMeansEnds(P, s, w, collected, e.pid, s.procs[e.pid].handles[Next(P, s.procs[e.pid]).handle]);
    }
  }

  /** The threads collected by the turn a step amounts to. */
  function Gained(P: Program, s: State, w: World, e: Event): set<nat> {
    if Image(P, s, e) == [] then {} else NewlyCollected(P, w, Image(P, s, e)[0])
  }

  /** An early reaping by the process that steps stays one until the commit collects it. */
  lemma EarlyOrCollected(P: Program, b: Build, s: State, w: World, e: Event, x: nat)
    requires Inv(P, s) && WaitersOk(P, s) && Matches(s, w) && Enabled(P, s, e)
    requires ReapedEarly(P, s, x)
    ensures ReapedEarly(P, Apply(P, b, s, e), x) || x in Gained(P, s, w, e)
  {
    OthersUntouched(P, b, s, e);
    if s.procs[x].parent == e.pid {
      assert BeginsOk(P, s.procs[e.pid]);
      assert Shows(s.procs[x], w.threads[x]);
      if Image(P, s, e) != [] {
        AwaitedByImage(P, s, w, e);
      }
      OwnStillEarly(P, b, s, e);
    }
    ParentKept(P, b, s, e, x);
  }

  lemma ParentKept(P: Program, b: Build, s: State, e: Event, x: nat)
    requires Enabled(P, s, e) && x < |s.procs|
    ensures Apply(P, b, s, e).procs[x].parent == s.procs[x].parent
  {
  }

  lemma OwnStillEarly(P: Program, b: Build, s: State, e: Event)
    requires Enabled(P, s, e) && BeginsOk(P, s.procs[e.pid]) && IsAccess(P.next(s.procs[e.pid].saved))
    requires var f := s.procs[e.pid].phase; f.Beginning? || Attempting(f) || f.Aborting?
    ensures !e.action.CommitEmpty?
    ensures var p, p' := s.procs[e.pid], Apply(P, b, s, e).procs[e.pid];
            (e.action.Validate? && Consistent(p.tracker.readSet, s.versions)) ||
            (p'.saved == p.saved && p'.predecessor == p.predecessor &&
             (p'.phase.Beginning? || Attempting(p'.phase) || p'.phase.Aborting?))
  {
  }

  lemma ReapedBy(P: Program, b: Build, s: State, e: Event, x: nat)
    requires Enabled(P, s, e) && x in Apply(P, b, s, e).reaped && x !in s.reaped
    ensures e.action.PredecessorGone? || e.action.JoinDone?
    ensures e.action.PredecessorGone? ==> AwaitsChild(s, e.pid) && x == s.procs[e.pid].predecessor
    ensures e.action.JoinDone? ==>
              x == s.procs[e.pid].handles[Next(P, s.procs[e.pid]).handle] && 0 < x < |s.procs| && s.procs[x].parent == e.pid
  {
  }

  lemma NewReaping(P: Program, b: Build, s: State, w: World, e: Event, x: nat)
    requires Inv(P, s) && WaitersOk(P, s) && Matches(s, w) && Enabled(P, s, e)
    requires x in Apply(P, b, s, e).reaped && x !in s.reaped
    ensures ReapedEarly(P, Apply(P, b, s, e), x) || x in Gained(P, s, w, e)
  {
    ReapedBy(P, b, s, e, x);
    if e.action.PredecessorGone? {
      assert BeginsOk(P, s.procs[e.pid]);
    } else {
      AwaitedByImage(P, s, w, e);
      assert Shows(s.procs[x], w.threads[x]);
    }
  }

  lemma StepReapsInTime(P: Program, b: Build, s: State, w: World, collected: set<nat>, e: Event)
    requires Inv(P, s) && WaitersOk(P, s) && Matches(s, w) && Enabled(P, s, e) && ReapedInTime(P, s, collected)
    ensures ReapedInTime(P, Apply(P, b, s, e), collected + Gained(P, s, w, e))
  {
    var s' := Apply(P, b, s, e);
    forall x | x in s'.reaped ensures x in collected + Gained(P, s, w, e) || ReapedEarly(P, s', x) {
      if x !in s.reaped {
        NewReaping(P, b, s, w, e, x);
      } else if x !in collected {
        EarlyOrCollected(P, b, s, w, e, x);
      }
    }
  }

  lemma StepEndsWaits(P: Program, b: Build, s: State, w: World, w': World, collected: set<nat>, e: Event)
    requires WaitersOk(P, s) && Matches(s, w) && Enabled(P, s, e)
    requires ReapedInTime(P, s, collected) && WaitsEnded(s, w, collected)
    requires w' == w || (Image(P, s, e) != [] && Possible(P, w, Image(P, s, e)[0]) && w' == Play(P, b, w, Image(P, s, e)[0]))
    ensures WaitsEnded(Apply(P, b, s, e), w', collected + Gained(P, s, w, e))
  {
    var s' := Apply(P, b, s, e);
    var more := Gained(P, s, w, e);
    OthersUntouched(P, b, s, e);
    forall i | 0 <= i < |s'.procs| && (s'.procs[i].phase.AwaitingMutex? || s'.procs[i].phase.Validating?)
      ensures WaitEnds(w', collected + more, i, s'.procs[i].predecessor)
    {
      WaitedAlready(P, b, s, e, i);
      if i == e.pid && e.action.PredecessorGone? {
        OverMeansEnds(P, s, w, collected, i, s.procs[i].predecessor);
      }
      assert WaitEnds(w, collected, i, s.procs[i].predecessor);
      if w' != w {
        WaitEndsLater(P, b, w, Image(P, s, e)[0], collected, more, i, s.procs[i].predecessor);
      }
    }
  }

  /** A process past its wait was so before, or has just ended it. */
  lemma WaitedAlready(P: Program, b: Build, s: State, e: Event, i: nat)
    requires Enabled(P, s, e) && i < |Apply(P, b, s, e).procs|
    requires var f := Apply(P, b, s, e).procs[i].phase; f.AwaitingMutex? || f.Validating?
    ensures i < |s.procs| && Apply(P, b, s, e).procs[i].predecessor == s.procs[i].predecessor
    ensures (i == e.pid && e.action.PredecessorGone?) || s.procs[i].phase.AwaitingMutex? || s.procs[i].phase.Validating?
  {
    OthersUntouched(P, b, s, e);
    if e.action.Fork? {
      assert Apply(P, b, s, e).procs[|s.procs|].phase.Beginning?;
    }
    if i == e.pid {
      WaitedBefore(P, b, s, e);
    }
  }

  lemma WaitedBefore(P: Program, b: Build, s: State, e: Event)
    requires Enabled(P, s, e)
    requires var f := Apply(P, b, s, e).procs[e.pid].phase; f.AwaitingMutex? || f.Validating?
    ensures e.action.PredecessorGone? || e.action.Lock?
  {
  }

  /** Every run amounts to a serial execution whose waits can end. */
  lemma {:induction false} RunsWaitInTime(P: Program, b: Build, c: Context, h: Heap, schedule: Schedule)
    ensures var turns := Images(P, b, Initial(c, h), schedule);
            WaitsEndThroughout(P, b, Origin(c, h), turns)
    ensures var s, turns := Run(P, b, Initial(c, h), schedule), Images(P, b, Initial(c, h), schedule);
            var collected := Collected(P, b, Origin(c, h), turns);
            ReapedInTime(P, s, collected) && WaitsEnded(s, PlayAll(P, b, Origin(c, h), turns), collected)
  {
    if schedule != [] {
      var before, e := schedule[..|schedule| - 1], schedule[|schedule| - 1];
      RunsWaitInTime(P, b, c, h, before);
      Serializable(P, b, c, h, before);
      RunKeepsWaiters(P, b, c, h, before);
      var s := Run(P, b, Initial(c, h), before);
      if Enabled(P, s, e) {
        StepWaitsInTime(P, b, Origin(c, h), s, Images(P, b, Initial(c, h), before), e);
      } else {
        assert Images(P, b, Initial(c, h), schedule) == Images(P, b, Initial(c, h), before);
      }
    }
  }

  lemma OneMoreWait(P: Program, b: Build, o: World, turns: seq<Turn>, more: seq<Turn>)
    requires |more| <= 1 && WaitsEndThroughout(P, b, o, turns)
    requires var w := PlayAll(P, b, o, turns);
             more != [] ==> WaitEnds(w, Collected(P, b, o, turns), more[0].pid, Awaited(P, w, more[0]))
    ensures WaitsEndThroughout(P, b, o, turns + more)
    ensures Collected(P, b, o, turns + more) ==
              Collected(P, b, o, turns) + (if more == [] then {} else NewlyCollected(P, PlayAll(P, b, o, turns), more[0]))
  {
    if more == [] {
      assert turns + more == turns && Collected(P, b, o, turns) + {} == Collected(P, b, o, turns);
    } else {
      assert (turns + more)[..|turns + more| - 1] == turns;
    }
  }

  lemma StepWaitsInTime(P: Program, b: Build, o: World, s: State, turns: seq<Turn>, e: Event)
    requires var w, collected := PlayAll(P, b, o, turns), Collected(P, b, o, turns);
             Inv(P, s) && WaitersOk(P, s) && WaitsKept(s) && Matches(s, w) && Enabled(P, s, e) &&
             ReapedInTime(P, s, collected) && WaitsEnded(s, w, collected)
    requires Feasible(P, b, o, turns) && WaitsEndThroughout(P, b, o, turns)
    ensures var turns' := turns + Image(P, s, e);
            var w', collected' := PlayAll(P, b, o, turns'), Collected(P, b, o, turns');
            WaitsEndThroughout(P, b, o, turns') && ReapedInTime(P, Apply(P, b, s, e), collected') &&
            WaitsEnded(Apply(P, b, s, e), w', collected')
  {
    var w, collected := PlayAll(P, b, o, turns), Collected(P, b, o, turns);
    StepSimulated(P, b, s, w, e);
    PlayOneMore(P, b, o, turns, Image(P, s, e));
    StepReapsInTime(P, b, s, w, collected, e);
    StepEndsWaits(P, b, s, w, PlayAll(P, b, o, turns + Image(P, s, e)), collected, e);
    if Image(P, s, e) != [] {
      ImageEnds(P, s, w, collected, e);
    }
    OneMoreWait(P, b, o, turns, Image(P, s, e));
  }

  /** For every run of either build there is one without rollbacks, in which one segment runs at a
      time, that ends with the same committed heap, the same versions, the same commits in the same
      order, and the same threads between their segments. */
  lemma {:induction false} RunsCanBeSerial(P: Program, b: Build, c: Context, h: Heap, schedule: Schedule)
      returns (schedule': Schedule)
    ensures var s, s' := Run(P, b, Initial(c, h), schedule), Run(P, b, Initial(c, h), schedule');
            && s'.rollbacks == 0 && Resting(s')
            && s'.heap == CommittedHeap(s) && s'.log == s.log
            && (forall g: Page :: Version(s'.versions, g) == Version(CommittedVersions(s), g))
            && (exists w :: Matches(s, w) && Matches(s', w))
  {
    Serializable(P, b, c, h, schedule);
    RunsWaitInTime(P, b, c, h, schedule);
    var turns := Images(P, b, Initial(c, h), schedule);
    var s' := SerialIsRealizable(P, b, c, h, turns);
    schedule' :| Run(P, b, Initial(c, h), schedule') == s';
    VersionCounts.RunCounts(P, b, c, h, schedule);
    VersionCounts.RunCounts(P, b, c, h, schedule');
    assert Matches(s', PlayAll(P, b, Origin(c, h), turns));
    assert CommittedVersions(s') == s'.versions;
    var s := Run(P, b, Initial(c, h), schedule);
    forall g: Page ensures Version(s'.versions, g) == Version(CommittedVersions(s), g) {
      assert Version(CommittedVersions(s'), g) == VersionCounts.Writers(s'.log, g);
    }
  }
}
