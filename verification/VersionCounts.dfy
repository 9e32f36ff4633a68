/** Versions count commits, and every rollback is paid for by somebody else's commit. */
module VersionCounts {
  import opened Memory
  import opened Segments
  import opened Tracking
  import opened Protocol
  import opened Invariant

  type Log = seq<Commit>

  /** How many commits wrote page `g`. */
  function Writers(log: Log, g: Page): nat {
    if log == [] then 0
    else Writers(log[..|log| - 1], g) + (if g in log[|log| - 1].wrote then 1 else 0)
  }

  /** How many commits wrote anything at all. */
  function Writing(log: Log): nat {
    if log == [] then 0
    else Writing(log[..|log| - 1]) + (if log[|log| - 1].wrote != {} then 1 else 0)
  }

  /** How many of those were made by processes other than `i`. */
  function WritingByOthers(log: Log, i: nat): nat {
    if log == [] then 0
    else WritingByOthers(log[..|log| - 1], i)
         + (if log[|log| - 1].wrote != {} && log[|log| - 1].pid != i then 1 else 0)
  }

  function Aborts(procs: seq<Process>): nat {
    if procs == [] then 0 else Aborts(procs[..|procs| - 1]) + procs[|procs| - 1].aborts
  }

  // ---- counting ----

  /** Equal counts mean nobody wrote the page in between: there is no ABA. */
  lemma {:induction false} EqualCountsMeanUnwritten(log: Log, m: nat, g: Page)
    requires m <= |log|
    ensures Writers(log[..m], g) <= Writers(log, g)
    ensures Writers(log[..m], g) == Writers(log, g) <==> forall k :: m <= k < |log| ==> g !in log[k].wrote
  {
    if m == |log| {
      assert log[..m] == log;
    } else {
      var front := log[..|log| - 1];
      EqualCountsMeanUnwritten(front, m, g);
      assert front[..m] == log[..m];
    }
  }

  lemma {:induction false} OthersOnlyGrow(log: Log, m: nat, i: nat)
    requires m <= |log|
    ensures WritingByOthers(log[..m], i) <= WritingByOthers(log, i)
    ensures (exists k :: m <= k < |log| && log[k].wrote != {} && log[k].pid != i)
            ==> WritingByOthers(log[..m], i) < WritingByOthers(log, i)
  {
    if m == |log| {
      assert log[..m] == log;
    } else {
      var front := log[..|log| - 1];
      OthersOnlyGrow(front, m, i);
      assert front[..m] == log[..m];
    }
  }

  function TotalByOthers(log: Log, n: nat): nat {
    if n == 0 then 0 else TotalByOthers(log, n - 1) + WritingByOthers(log, n - 1)
  }

  lemma {:induction false} TotalAfter(log: Log, n: nat)
    requires log != []
    ensures var c := log[|log| - 1];
            TotalByOthers(log, n) == TotalByOthers(log[..|log| - 1], n)
              + (if c.wrote == {} then 0 else if c.pid < n then n - 1 else n)
  {
    if n > 0 {
      TotalAfter(log, n - 1);
    }
  }

  /** Each commit counts once for every process but its own. */
  lemma {:induction false} TotalIsProduct(log: Log, n: nat)
    requires n > 0 && forall k :: 0 <= k < |log| ==> log[k].pid < n
    ensures TotalByOthers(log, n) == Writing(log) * (n - 1)
  {
    if log == [] {
      NothingByOthers(n);
    } else {
      var front := log[..|log| - 1];
      TotalIsProduct(front, n);
      TotalAfter(log, n);
      OneMoreProduct(Writing(front), n - 1);
    }
  }

  lemma OneMoreProduct(x: nat, y: nat)
    ensures (x + 1) * y == x * y + y
  {
  }

  lemma {:induction false} NothingByOthers(n: nat)
    ensures TotalByOthers([], n) == 0
  {
    if n > 0 {
      NothingByOthers(n - 1);
    }
  }

  lemma {:induction false} AbortsAfterUpdate(procs: seq<Process>, i: nat, p: Process)
    requires i < |procs|
    ensures Aborts(procs[i := p]) + procs[i].aborts == Aborts(procs) + p.aborts
  {
    var n := |procs| - 1;
    if i < n {
      AbortsAfterUpdate(procs[..n], i, p);
      assert procs[i := p][..n] == procs[..n][i := p];
    } else {
      assert procs[i := p][..n] == procs[..n];
    }
  }

  lemma {:induction false} AbortsBounded(procs: seq<Process>, log: Log, n: nat)
    requires n <= |procs|
    requires forall i :: 0 <= i < n ==> procs[i].aborts <= WritingByOthers(log, i)
    ensures Aborts(procs[..n]) <= TotalByOthers(log, n)
  {
    if n > 0 {
      AbortsBounded(procs, log, n - 1);
      assert procs[..n][..n - 1] == procs[..n - 1];
    }
  }

  // ---- the counting invariant ----

  predicate Counted(log: Log, i: nat, p: Process) {
    && p.since <= |log|
    && p.aborts <= WritingByOthers(log[..p.since], i)
    && (Attempting(p.phase) ==>
          (forall g: Page :: Version(p.tracker.snapshot, g) == Writers(log[..p.since], g))
          && (forall k :: p.since <= k < |log| ==> log[k].pid != i))
  }

  predicate CountsOk(s: State) {
    && (forall g: Page :: Version(CommittedVersions(s), g) == Writers(s.log, g))
    && (forall i :: 0 <= i < |s.procs| ==> Counted(s.log, i, s.procs[i]))
    && (forall k :: 0 <= k < |s.log| ==> s.log[k].pid < |s.procs|)
    && s.rollbacks == Aborts(s.procs)
    && s.procs != []
  }

  lemma CountedLater(log: Log, c: Commit, i: nat, p: Process)
    requires Counted(log, i, p) && c.pid != i
    ensures Counted(log + [c], i, p)
  {
    assert (log + [c])[..p.since] == log[..p.since];
  }

  /** A failed validation has somebody to blame: another process committed a page of the read set
      after this attempt took its snapshot. */
  lemma FailureHasCulprit(P: Program, s: State, i: nat) returns (k: nat, g: Page)
    requires Inv(P, s) && CountsOk(s) && i < |s.procs| && s.procs[i].phase.Validating?
    requires !Consistent(s.procs[i].tracker.readSet, s.versions)
    ensures s.procs[i].since <= k < |s.log| && s.log[k].pid != i
    ensures g in s.procs[i].tracker.readSet && g in s.log[k].wrote
  {
    var p := s.procs[i];
    assert s.mutex == Held(i) && !Committing(s);
    assert ProcessOk(P, s.heap, s.versions, s.versions, p);
    assert Counted(s.log, i, p);
    g :| g in p.tracker.readSet && g in s.versions && s.versions[g] != p.tracker.readSet[g];
    assert Version(s.versions, g) == Writers(s.log, g);
    assert Version(p.tracker.snapshot, g) == Writers(s.log[..p.since], g);
    EqualCountsMeanUnwritten(s.log, p.since, g);
    k :| p.since <= k < |s.log| && g in s.log[k].wrote;
  }

  lemma CommitCountsOnce(t: Versions, wrote: Versions, log: Log, i: nat)
    requires forall g: Page :: Version(t, g) == Writers(log, g)
    requires forall g :: g in wrote ==> wrote[g] == Version(t, g) + 1
    ensures forall g: Page :: Version(t + wrote, g) == Writers(log + [Commit(i, wrote.Keys)], g)
  {
    var log' := log + [Commit(i, wrote.Keys)];
    assert log'[..|log'| - 1] == log;
    forall g: Page ensures Version(t + wrote, g) == Writers(log', g) {
      assert Version(t, g) == Writers(log, g);
    }
  }

  /** The committed versions count the new commit too. */
  lemma SuccessVersions(P: Program, b: Build, s: State, i: nat)
    requires Inv(P, s) && CountsOk(s) && Enabled(P, s, Event(i, Validate))
    requires Current(s.procs[i].tracker.readSet, s.versions)
    ensures var log := s.log + [Commit(i, s.procs[i].tracker.writeSet.Keys)];
            forall g: Page :: Version(s.versions + s.procs[i].tracker.writeSet, g) == Writers(log, g)
  {
    var p := s.procs[i];
    assert s.mutex == Held(i) && !Committing(s);
    assert ProcessOk(P, s.heap, s.versions, s.versions, p);
    forall g | g in p.tracker.writeSet ensures p.tracker.writeSet[g] == Version(s.versions, g) + 1 {
      assert p.tracker.readSet[g] == Version(s.versions, g);
    }
    CommitCountsOnce(s.versions, p.tracker.writeSet, s.log, i);
  }

  lemma SuccessCounts(P: Program, b: Build, s: State, i: nat)
    requires Inv(P, s) && CountsOk(s) && Enabled(P, s, Event(i, Validate))
    requires Current(s.procs[i].tracker.readSet, s.versions)
    ensures CountsOk(Apply(P, b, s, Event(i, Validate)))
  {
    var s' := Apply(P, b, s, Event(i, Validate));
    ValidateKeeps(P, b, s, i);
    ValidationIsExact(P, s, i);
    AbortsAfterUpdate(s.procs, i, s'.procs[i]);
    SuccessVersions(P, b, s, i);
    OneMoreCommit(s, s', i, Commit(i, s.procs[i].tracker.writeSet.Keys));
  }

  lemma OneMoreCommit(s: State, s': State, i: nat, c: Commit)
    requires CountsOk(s) && i < |s.procs| && s'.log == s.log + [c] && c.pid == i
    requires |s'.procs| == |s.procs| && !Attempting(s'.procs[i].phase)
    requires s'.procs[i].since == s.procs[i].since && s'.procs[i].aborts == s.procs[i].aborts
    requires forall j :: 0 <= j < |s.procs| && j != i ==> s'.procs[j] == s.procs[j]
    ensures forall j :: 0 <= j < |s'.procs| ==> Counted(s'.log, j, s'.procs[j])
  {
    assert Counted(s.log, i, s.procs[i]);
    assert s'.log[..s.procs[i].since] == s.log[..s.procs[i].since];
    forall j | 0 <= j < |s'.procs| && j != i ensures Counted(s'.log, j, s'.procs[j]) {
      CountedLater(s.log, c, j, s.procs[j]);
    }
  }

  lemma FailureCounts(P: Program, b: Build, s: State, i: nat)
    requires Inv(P, s) && CountsOk(s) && Enabled(P, s, Event(i, Validate))
    requires !Current(s.procs[i].tracker.readSet, s.versions)
    ensures CountsOk(Apply(P, b, s, Event(i, Validate)))
  {
    var p := s.procs[i];
    var s' := Apply(P, b, s, Event(i, Validate));
    ValidateKeeps(P, b, s, i);
    ValidationIsExact(P, s, i);
    assert !Committing(s);
    AbortsAfterUpdate(s.procs, i, s'.procs[i]);
    assert Counted(s.log, i, p);
    var k, g := FailureHasCulprit(P, s, i);
    OthersOnlyGrow(s.log, p.since, i);
    assert s.log[..|s.log|] == s.log;
  }

  lemma EmptyCounts(P: Program, b: Build, s: State, i: nat)
    requires Inv(P, s) && CountsOk(s) && Enabled(P, s, Event(i, CommitEmpty))
    requires CommittedVersions(Apply(P, b, s, Event(i, CommitEmpty))) == CommittedVersions(s)
    ensures CountsOk(Apply(P, b, s, Event(i, CommitEmpty)))
  {
    var s' := Apply(P, b, s, Event(i, CommitEmpty));
    var c := Commit(i, {});
    AbortsAfterUpdate(s.procs, i, s'.procs[i]);
    assert s'.log == s.log + [c] && s'.log[..|s'.log| - 1] == s.log;
    OneMoreCommit(s, s', i, c);
  }

  lemma SnapshotCounts(P: Program, b: Build, s: State, i: nat)
    requires Inv(P, s) && CountsOk(s) && Enabled(P, s, Event(i, Snapshot))
    ensures CountsOk(Apply(P, b, s, Event(i, Snapshot)))
  {
    var s' := Apply(P, b, s, Event(i, Snapshot));
    CommittedStateKept(P, b, s, Event(i, Snapshot));
    AbortsAfterUpdate(s.procs, i, s'.procs[i]);
    assert s.log[..|s.log|] == s.log;
    assert Counted(s.log, i, s.procs[i]);
    OthersOnlyGrow(s.log, s.procs[i].since, i);
  }

  lemma ForkAborts(P: Program, b: Build, s: State, i: nat)
    requires Enabled(P, s, Event(i, Fork))
    ensures Aborts(Forked(P, b, s, i).procs) == Aborts(s.procs)
  {
    var s', n := Forked(P, b, s, i), |s.procs|;
    AbortsAfterUpdate(s.procs, i, s'.procs[i]);
    assert s'.procs[..n] == s.procs[i := s'.procs[i]];
    assert s'.procs[n].aborts == 0;
  }

  lemma ForkCounted(P: Program, b: Build, s: State, i: nat)
    requires Enabled(P, s, Event(i, Fork)) && forall j :: 0 <= j < |s.procs| ==> Counted(s.log, j, s.procs[j])
    ensures var s' := Forked(P, b, s, i); forall j :: 0 <= j < |s'.procs| ==> Counted(s'.log, j, s'.procs[j])
  {
    assert Counted(s.log, i, s.procs[i]);
  }

  lemma ForkCounts(P: Program, b: Build, s: State, i: nat)
    requires Inv(P, s) && CountsOk(s) && Enabled(P, s, Event(i, Fork))
    ensures CountsOk(Apply(P, b, s, Event(i, Fork)))
  {
    CommittedStateKept(P, b, s, Event(i, Fork));
    ForkAborts(P, b, s, i);
    ForkCounted(P, b, s, i);
  }

  predicate CountingAction(a: Action) {
    a.Validate? || a.CommitEmpty? || a.Snapshot? || a.Fork?
  }

  lemma OwnCounters(P: Program, b: Build, s: State, e: Event)
    requires Enabled(P, s, e) && !CountingAction(e.action)
    ensures var s' := Apply(P, b, s, e);
            s'.log == s.log && s'.rollbacks == s.rollbacks && |s'.procs| == |s.procs| &&
            var p, p' := s.procs[e.pid], s'.procs[e.pid];
            p'.since == p.since && p'.aborts == p.aborts &&
            (Attempting(p'.phase) ==> Attempting(p.phase) && p'.tracker.snapshot == p.tracker.snapshot)
  {
  }

  lemma OtherCounted(P: Program, b: Build, s: State, e: Event)
    requires Enabled(P, s, e) && !CountingAction(e.action)
    requires forall j :: 0 <= j < |s.procs| ==> Counted(s.log, j, s.procs[j])
    ensures var s' := Apply(P, b, s, e);
            |s'.procs| == |s.procs| && forall j :: 0 <= j < |s'.procs| ==> Counted(s'.log, j, s'.procs[j])
    ensures Aborts(Apply(P, b, s, e).procs) == Aborts(s.procs)
  {
    var s' := Apply(P, b, s, e);
    OthersUntouched(P, b, s, e);
    OwnCounters(P, b, s, e);
    assert Counted(s.log, e.pid, s.procs[e.pid]);
    assert s'.procs == s.procs[e.pid := s'.procs[e.pid]];
    AbortsAfterUpdate(s.procs, e.pid, s'.procs[e.pid]);
  }

  lemma OtherCounts(P: Program, b: Build, s: State, e: Event)
    requires Inv(P, s) && CountsOk(s) && Enabled(P, s, e) && !CountingAction(e.action)
    ensures CountsOk(Apply(P, b, s, e))
  {
    CommittedStateKept(P, b, s, e);
    OwnCounters(P, b, s, e);
    OtherCounted(P, b, s, e);
  }

  lemma StepCounts(P: Program, b: Build, s: State, e: Event)
    requires Inv(P, s) && CountsOk(s)
    ensures CountsOk(Step(P, b, s, e))
  {
    if Enabled(P, s, e) {
      match e.action {
        case Validate =>
          if Current(s.procs[e.pid].tracker.readSet, s.versions) {
            SuccessCounts(P, b, s, e.pid);
          } else {
            FailureCounts(P, b, s, e.pid);
          }
        case CommitEmpty =>
          CommittedStateKept(P, b, s, e);
          EmptyCounts(P, b, s, e.pid);
        case Snapshot => SnapshotCounts(P, b, s, e.pid);
        case Fork => ForkCounts(P, b, s, e.pid);
        case _ => OtherCounts(P, b, s, e);
      }
    }
  }

  lemma {:induction false} RunCounts(P: Program, b: Build, c: Context, h: Heap, schedule: Schedule)
    ensures Inv(P, Run(P, b, Initial(c, h), schedule)) && CountsOk(Run(P, b, Initial(c, h), schedule))
  {
    InitialOk(P, c, h);
    if schedule != [] {
      var before := schedule[..|schedule| - 1];
      RunCounts(P, b, c, h, before);
      StepKeeps(P, b, Run(P, b, Initial(c, h), before), schedule[|schedule| - 1]);
      StepCounts(P, b, Run(P, b, Initial(c, h), before), schedule[|schedule| - 1]);
    }
  }

  /** Outside a commit, the version of every page is the number of committed segments that wrote it. */
  lemma VersionsCountCommits(P: Program, b: Build, c: Context, h: Heap, schedule: Schedule, g: Page)
    requires var s := Run(P, b, Initial(c, h), schedule); !Committing(s)
    ensures var s := Run(P, b, Initial(c, h), schedule); Version(s.versions, g) == Writers(s.log, g)
  {
    RunCounts(P, b, c, h, schedule);
    var s := Run(P, b, Initial(c, h), schedule);
    assert Version(CommittedVersions(s), g) == Writers(s.log, g);
  }

  /** Rollbacks are bounded by the commits that write: each one can spoil at most one attempt of
      every other process. */
  lemma {:induction false} RollbackBound(P: Program, b: Build, c: Context, h: Heap, schedule: Schedule)
    ensures var s := Run(P, b, Initial(c, h), schedule);
            s.rollbacks <= Writing(s.log) * (|s.procs| - 1)
  {
    RunCounts(P, b, c, h, schedule);
    var s := Run(P, b, Initial(c, h), schedule);
    forall i | 0 <= i < |s.procs| ensures s.procs[i].aborts <= WritingByOthers(s.log, i) {
      assert Counted(s.log, i, s.procs[i]);
      OthersOnlyGrow(s.log, s.procs[i].since, i);
    }
    AbortsBounded(s.procs, s.log, |s.procs|);
    assert s.procs[..|s.procs|] == s.procs;
    TotalIsProduct(s.log, |s.procs|);
  }
}
