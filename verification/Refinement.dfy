/** One-copy serializability: every schedule of the runtime is matched by threads that run their
    committed segments one at a time. */
module Refinement {
  import opened Memory
  import opened Segments
  import opened Tracking
  import opened Protocol
  import opened Invariant
  import opened Serial

  // ---- the correspondence ----

  predicate Shows(p: Process, d: Thread) {
    && p.parent == d.parent && p.predecessor == d.predecessor && p.handles == d.handles
    && (match p.phase
        case Exited => d.stage.Gone?
        case Installing(_) => d.stage.Done? && d.ctx == p.attempt.ctx
        case Synced => d.stage.Done? && d.ctx == p.attempt.ctx
        case _ => d.stage.Ready? && d.ctx == p.saved)
  }

  predicate Matches(s: State, w: World) {
    && w.heap == CommittedHeap(s)
    && w.log == s.log
    && |w.threads| == |s.procs|
    && (forall i :: 0 <= i < |s.procs| ==> Shows(s.procs[i], w.threads[i]))
  }

  /** The turn a step amounts to: a segment runs when its validation succeeds. */
  function Image(P: Program, s: State, e: Event): seq<Turn> {
    if !Enabled(P, s, e) then [] else
    match e.action
    case CommitEmpty => [Turn(e.pid, Segment(0))]
    case Validate =>
      var p := s.procs[e.pid];
      if Consistent(p.tracker.readSet, s.versions) then [Turn(e.pid, Segment(p.accesses))] else []
    case Fork => [Turn(e.pid, Spawn)]
    case JoinDone => [Turn(e.pid, Joined)]
    case Leave => [Turn(e.pid, Finish)]
    case _ => []
  }

  function Images(P: Program, b: Build, s: State, schedule: Schedule): seq<Turn> {
    if schedule == [] then []
    else
      var before := schedule[..|schedule| - 1];
      Images(P, b, s, before) + Image(P, Run(P, b, s, before), schedule[|schedule| - 1])
  }

  // ---- a commit follows its predecessor ----

  predicate PredecessorDone(s: State, p: Process) {
    p.predecessor == 0 || (p.predecessor < |s.procs| && s.procs[p.predecessor].phase.Exited?)
  }

  predicate WaitsKept(s: State) {
    forall i :: 0 <= i < |s.procs| && (s.procs[i].phase.AwaitingMutex? || s.procs[i].phase.Validating?)
                ==> PredecessorDone(s, s.procs[i])
  }

  lemma {:induction false} WaitsStayKept(P: Program, b: Build, s: State, e: Event)
    requires WaitsKept(s)
    ensures WaitsKept(Step(P, b, s, e))
  {
    if Enabled(P, s, e) {
      var s' := Step(P, b, s, e);
      OthersUntouched(P, b, s, e);
      forall j | 0 <= j < |s'.procs| && (s'.procs[j].phase.AwaitingMutex? || s'.procs[j].phase.Validating?)
        ensures PredecessorDone(s', s'.procs[j])
      {
        if j < |s.procs| && j != e.pid {
          assert PredecessorDone(s, s.procs[j]);
        }
      }
    }
  }

  // ---- one step ----

  predicate Simulated(P: Program, b: Build, s: State, s': State, w: World, turns: seq<Turn>) {
    |turns| <= 1 &&
    (turns == [] ==> Matches(s', w)) &&
    (turns != [] ==> Possible(P, w, turns[0]) && Matches(s', Play(P, b, w, turns[0])))
  }

  /** An attempt whose versions are current ends as direct execution does. */
  lemma ValidatedIsDirect(P: Program, s: State, i: nat)
    requires Inv(P, s) && i < |s.procs| && s.procs[i].phase.Validating? && Current(s.procs[i].tracker.readSet, s.versions)
    ensures var p := s.procs[i];
            DirectRun(P, p.saved, s.heap, p.accesses)
            == Machine(p.attempt.ctx, Overlay(s.heap, p.attempt.copies), p.tracker.writeSet.Keys)
            && AtSync(P, p.attempt.ctx)
  {
    var p := s.procs[i];
    assert s.mutex == Held(i) && !Committing(s);
    assert ProcessOk(P, s.heap, s.versions, s.versions, p);
    UndisturbedIsDirect(P, p.saved, s.heap, p.accesses);
    assert p.attempt.copies.Keys == p.tracker.writeSet.Keys;
  }

  lemma SegmentSimulated(P: Program, b: Build, s: State, w: World, i: nat)
    requires Inv(P, s) && WaitsKept(s) && Matches(s, w) && Enabled(P, s, Event(i, Validate))
    ensures Simulated(P, b, s, Apply(P, b, s, Event(i, Validate)), w, Image(P, s, Event(i, Validate)))
  {
    var p := s.procs[i];
    var s' := Apply(P, b, s, Event(i, Validate));
    assert s.mutex == Held(i) && !Committing(s);
    ValidationIsExact(P, s, i);
    ValidateKeeps(P, b, s, i);
    assert Shows(p, w.threads[i]);
    if Current(p.tracker.readSet, s.versions) {
      ValidatedIsDirect(P, s, i);
      var u := Turn(i, Segment(p.accesses));
      PredecessorFinished(s, w, i);
      assert Possible(P, w, u);
      OthersShown(s, s', w, Play(P, b, w, u), i);
    } else {
      OthersShown(s, s', w, w, i);
    }
  }

  lemma PredecessorFinished(s: State, w: World, i: nat)
    requires WaitsKept(s) && Matches(s, w) && i < |s.procs| && s.procs[i].phase.Validating?
    ensures w.threads[i].predecessor == 0 || HasFinished(w, w.threads[i].predecessor)
  {
    assert Shows(s.procs[i], w.threads[i]) && PredecessorDone(s, s.procs[i]);
    var t := s.procs[i].predecessor;
    assert t < |s.procs| ==> Shows(s.procs[t], w.threads[t]);
  }

  lemma OthersShown(s: State, s': State, w: World, w': World, i: nat)
    requires Matches(s, w) && i < |s.procs| == |s'.procs| == |w'.threads|
    requires forall j :: 0 <= j < |s.procs| && j != i ==> s'.procs[j] == s.procs[j] && w'.threads[j] == w.threads[j]
    requires Shows(s'.procs[i], w'.threads[i]) && w'.heap == CommittedHeap(s') && w'.log == s'.log
    ensures Matches(s', w')
  {
    forall j | 0 <= j < |s'.procs| ensures Shows(s'.procs[j], w'.threads[j]) {
      assert Shows(s.procs[j], w.threads[j]);
    }
  }

  lemma EmptySimulated(P: Program, b: Build, s: State, w: World, i: nat)
    requires Inv(P, s) && Matches(s, w) && Enabled(P, s, Event(i, CommitEmpty))
    ensures Simulated(P, b, s, Apply(P, b, s, Event(i, CommitEmpty)), w, Image(P, s, Event(i, CommitEmpty)))
  {
    var p := s.procs[i];
    CommittedStateKept(P, b, s, Event(i, CommitEmpty));
    assert p.attempt.ctx == p.saved by {
      assert ProcessOk(P, CommittedHeap(s), CommittedVersions(s), s.versions, p);
      assert p.accesses == 0;
    }
    assert Shows(p, w.threads[i]);
    assert DirectRun(P, p.saved, w.heap, 0) == Machine(p.saved, w.heap, {});
    OthersShown(s, Apply(P, b, s, Event(i, CommitEmpty)), w, Play(P, b, w, Turn(i, Segment(0))), i);
  }

  lemma ForkSimulated(P: Program, b: Build, s: State, w: World, i: nat)
    requires Inv(P, s) && Matches(s, w) && Enabled(P, s, Event(i, Fork))
    ensures Simulated(P, b, s, Apply(P, b, s, Event(i, Fork)), w, Image(P, s, Event(i, Fork)))
  {
    CommittedStateKept(P, b, s, Event(i, Fork));
    assert Shows(s.procs[i], w.threads[i]);
    var s', w' := Forked(P, b, s, i), Spawned(P, b, w, i);
    forall j | 0 <= j < |s'.procs| ensures Shows(s'.procs[j], w'.threads[j]) {
      assert j < |s.procs| && j != i ==> Shows(s.procs[j], w.threads[j]);
    }
  }

  lemma SyncPossible(P: Program, b: Build, s: State, w: World, e: Event)
    requires Matches(s, w) && Enabled(P, s, e) && (e.action.JoinDone? || e.action.Leave?)
    ensures var u := Turn(e.pid, if e.action.JoinDone? then Joined else Finish);
            Image(P, s, e) == [u] && Possible(P, w, u) &&
            Shows(Apply(P, b, s, e).procs[e.pid], Play(P, b, w, u).threads[e.pid])
  {
    var p := s.procs[e.pid];
    assert Shows(p, w.threads[e.pid]);
    if e.action.JoinDone? {
      var t := p.handles[Next(P, p).handle];
      assert t < |s.procs| ==> Shows(s.procs[t], w.threads[t]);
    }
  }

  lemma JoinOrLeaveSimulated(P: Program, b: Build, s: State, w: World, e: Event)
    requires Inv(P, s) && Matches(s, w) && Enabled(P, s, e) && (e.action.JoinDone? || e.action.Leave?)
    ensures Simulated(P, b, s, Apply(P, b, s, e), w, Image(P, s, e))
  {
    CommittedStateKept(P, b, s, e);
    SyncPossible(P, b, s, w, e);
    OthersUntouched(P, b, s, e);
    OthersShown(s, Apply(P, b, s, e), w, Play(P, b, w, Image(P, s, e)[0]), e.pid);
  }

  /** Every other step leaves the world as it is. */
  lemma QuietSimulated(P: Program, b: Build, s: State, w: World, e: Event)
    requires Inv(P, s) && Matches(s, w) && Enabled(P, s, e)
    requires !e.action.CommitEmpty? && !e.action.Validate? && !e.action.Fork? && !e.action.JoinDone? && !e.action.Leave?
    ensures Image(P, s, e) == [] && Matches(Apply(P, b, s, e), w)
  {
    CommittedStateKept(P, b, s, e);
    OthersUntouched(P, b, s, e);
    OwnShown(P, b, s, w, e);
    OthersShown(s, Apply(P, b, s, e), w, w, e.pid);
  }

  lemma OwnShown(P: Program, b: Build, s: State, w: World, e: Event)
    requires Inv(P, s) && Matches(s, w) && Enabled(P, s, e)
    requires !e.action.CommitEmpty? && !e.action.Validate? && !e.action.Fork? && !e.action.JoinDone? && !e.action.Leave?
    ensures Shows(Apply(P, b, s, e).procs[e.pid], w.threads[e.pid]) && Apply(P, b, s, e).log == s.log
  {
    assert Shows(s.procs[e.pid], w.threads[e.pid]);
  }

  lemma {:induction false} StepSimulated(P: Program, b: Build, s: State, w: World, e: Event)
    requires Inv(P, s) && WaitsKept(s) && Matches(s, w)
    ensures Simulated(P, b, s, Step(P, b, s, e), w, Image(P, s, e))
  {
    if Enabled(P, s, e) {
      match e.action {
        case Validate => SegmentSimulated(P, b, s, w, e.pid);
        case CommitEmpty => EmptySimulated(P, b, s, w, e.pid);
        case Fork => ForkSimulated(P, b, s, w, e.pid);
        case JoinDone => JoinOrLeaveSimulated(P, b, s, w, e);
        case Leave => JoinOrLeaveSimulated(P, b, s, w, e);
        case _ => QuietSimulated(P, b, s, w, e);
      }
    }
  }

  // ---- every schedule ----

  /** Every reachable state matches a world reached by a feasible serial execution of the committed
      segments, in commit order, with the same forks, joins and exits. */
  lemma {:induction false} Serializable(P: Program, b: Build, c: Context, h: Heap, schedule: Schedule)
    ensures var s := Run(P, b, Initial(c, h), schedule);
            var turns := Images(P, b, Initial(c, h), schedule);
            Inv(P, s) && WaitsKept(s) &&
            Feasible(P, b, Origin(c, h), turns) && Matches(s, PlayAll(P, b, Origin(c, h), turns))
  {
    InitialOk(P, c, h);
    if schedule != [] {
      var before, e := schedule[..|schedule| - 1], schedule[|schedule| - 1];
      Serializable(P, b, c, h, before);
      var s := Run(P, b, Initial(c, h), before);
      var turns := Images(P, b, Initial(c, h), before);
      StepKeeps(P, b, s, e);
      WaitsStayKept(P, b, s, e);
      StepSimulated(P, b, s, PlayAll(P, b, Origin(c, h), turns), e);
      PlayOneMore(P, b, Origin(c, h), turns, Image(P, s, e));
    }
  }

  /** In particular, whenever no commit is under way the shared heap is the serial one. */
  lemma HeapIsSerial(P: Program, b: Build, c: Context, h: Heap, schedule: Schedule)
    requires Run(P, b, Initial(c, h), schedule).mutex.Free?
    ensures Run(P, b, Initial(c, h), schedule).heap
            == PlayAll(P, b, Origin(c, h), Images(P, b, Initial(c, h), schedule)).heap
  {
    Serializable(P, b, c, h, schedule);
  }
}
