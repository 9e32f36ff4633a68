/** Every run of a bounded program is finite, in both builds. */
module Termination {
  import opened Memory
  import opened Segments
  import opened Tracking
  import opened Protocol
  import opened Invariant

  /** A bound on what is left to do from each context, whatever values its loads return. */
  ghost predicate Bounded(P: Program, rank: Context -> nat) {
    forall c: Context, v: int ::
      match P.next(c)
      case Create(d) => rank(P.after(c, v)) + rank(d) < rank(c)
      case Exit => true
      case _ => rank(P.after(c, v)) < rank(c)
  }

  /** Cells of a page still to be copied. */
  function Differing(a: PageData, b: PageData, n: nat): nat
    requires n <= PAGE_SIZE
  {
    if n == 0 then 0 else Differing(a, b, n - 1) + (if a[n - 1] != b[n - 1] then 1 else 0)
  }

  /** Cells to copy and pages to bump in the pages below `n`. */
  function CopyWork(h: Heap, copies: Copies, rest: set<Page>, n: nat): nat
    requires n <= NUM_PAGES
  {
    if n == 0 then 0
    else CopyWork(h, copies, rest, n - 1)
         + (if n - 1 in rest then 1 + Differing(h[n - 1], ViewPage(h, copies, n - 1), PAGE_SIZE) else 0)
  }

  function FaultsAhead(k: Tracker, op: Op): nat {
    if !IsAccess(op) then 0
    else
      match Granted(k, op.a.page)
      case NoAccess => if op.Load? then 1 else 2
      case ReadOnly => if op.Load? then 0 else 1
      case ReadWrite => 0
  }

  /** Three quantities of a process: what is left to commit, whether its snapshot is outdated, and
      what is left of the current attempt. */
  datatype Gauge =
    | ToCommit(rank: Context -> nat)
    | Outdated(t: Versions)
    | ToDo(P: Program, r: Context -> nat, h: Heap)

  predicate UpToDate(k: Tracker, t: Versions) {
    forall g: Page :: Version(k.snapshot, g) == Version(t, g)
  }

  function Measured(m: Gauge, p: Process): nat {
    match m
    case ToCommit(rank) =>
      (match p.phase
       case Exited => 0
       case Installing(_) => 4 * rank(p.attempt.ctx) + 1
       case Synced => 4 * rank(p.attempt.ctx) + 1
       case _ => 4 * rank(p.saved) + 2)
    case Outdated(t) => if Attempting(p.phase) && !UpToDate(p.tracker, t) then 1 else 0
    case ToDo(P, rank, h) =>
      (match p.phase
       case Aborting => 4 * rank(p.saved) + 21
       case Beginning => 4 * rank(p.saved) + 20
       case Running => 4 * rank(p.attempt.ctx) + FaultsAhead(p.tracker, Next(P, p)) + 10
       case AwaitingPredecessor => 9
       case AwaitingMutex => 8
       case Validating => 7
       case Installing(rest) => 1 + CopyWork(h, p.attempt.copies, rest, NUM_PAGES)
       case Synced => 0
       case Exited => 0)
  }

  function Total(m: Gauge, procs: seq<Process>): nat {
    if procs == [] then 0 else Total(m, procs[..|procs| - 1]) + Measured(m, procs[|procs| - 1])
  }

  lemma {:induction false} TotalDrops(m: Gauge, procs: seq<Process>, m': Gauge, procs': seq<Process>, i: nat, d: nat)
    requires i < |procs| == |procs'|
    requires forall j :: 0 <= j < |procs| && j != i ==> Measured(m', procs'[j]) == Measured(m, procs[j])
    requires Measured(m', procs'[i]) + d <= Measured(m, procs[i])
    ensures Total(m', procs') + d <= Total(m, procs)
  {
    var n := |procs| - 1;
    if i < n {
      TotalDrops(m, procs[..n], m', procs'[..n], i, d);
    } else {
      TotalSame(m, procs[..n], m', procs'[..n]);
    }
  }

  lemma {:induction false} TotalSame(m: Gauge, procs: seq<Process>, m': Gauge, procs': seq<Process>)
    requires |procs| == |procs'|
    requires forall j :: 0 <= j < |procs| ==> Measured(m', procs'[j]) == Measured(m, procs[j])
    ensures Total(m', procs') == Total(m, procs)
  {
    if procs != [] {
      TotalSame(m, procs[..|procs| - 1], m', procs'[..|procs| - 1]);
    }
  }

  lemma {:induction false} OneCellLess(a: PageData, b: PageData, o: Offset, n: nat)
    requires n <= PAGE_SIZE && a[o] != b[o]
    ensures Differing(a[o := b[o]], b, n) + (if o < n then 1 else 0) == Differing(a, b, n)
  {
    if n > 0 {
      OneCellLess(a, b, o, n - 1);
    }
  }

  lemma {:induction false} CopyShrinksWork(h: Heap, copies: Copies, rest: set<Page>, g: Page, o: Offset, n: nat)
    requires n <= NUM_PAGES && rest <= copies.Keys && g in rest && copies[g][o] != h[g][o]
    ensures CopyWork(Write(h, At(g, o), copies[g][o]), copies, rest, n) + (if g < n then 1 else 0)
            == CopyWork(h, copies, rest, n)
  {
    if n > 0 {
      CopyShrinksWork(h, copies, rest, g, o, n - 1);
      OneCellLess(h[g], copies[g], o, PAGE_SIZE);
    }
  }

  lemma {:induction false} BumpShrinksWork(h: Heap, copies: Copies, rest: set<Page>, g: Page, n: nat)
    requires n <= NUM_PAGES && g in rest
    ensures CopyWork(h, copies, rest - {g}, n) + (if g < n then 1 else 0) <= CopyWork(h, copies, rest, n)
  {
    if n > 0 {
      BumpShrinksWork(h, copies, rest, g, n - 1);
    }
  }

  // ---- the measure ----

  predicate RanksKept(rank: Context -> nat, s: State) {
    forall i :: 0 <= i < |s.procs| ==> rank(s.procs[i].attempt.ctx) <= rank(s.procs[i].saved)
  }

  predicate Below(a: (nat, nat, nat), b: (nat, nat, nat)) {
    a.0 < b.0 || (a.0 == b.0 && (a.1 < b.1 || (a.1 == b.1 && a.2 < b.2)))
  }

  function Measure(P: Program, rank: Context -> nat, s: State): (nat, nat, nat) {
    (Total(ToCommit(rank), s.procs), Total(Outdated(CommittedVersions(s)), s.procs), Total(ToDo(P, rank, s.heap), s.procs))
  }

  // ---- each action descends ----

  predicate OwnDescent(P: Program, rank: Context -> nat, t: Versions, h: Heap, p: Process, p': Process) {
    Below((Measured(ToCommit(rank), p'), Measured(Outdated(t), p'), Measured(ToDo(P, rank, h), p')),
          (Measured(ToCommit(rank), p), Measured(Outdated(t), p), Measured(ToDo(P, rank, h), p)))
  }

  /** If one process descends and the others stay, the whole descends. */
  lemma TotalsDescend(P: Program, rank: Context -> nat, t: Versions, h: Heap, procs: seq<Process>, procs': seq<Process>, i: nat)
    requires i < |procs| == |procs'| && OwnDescent(P, rank, t, h, procs[i], procs'[i])
    requires forall j :: 0 <= j < |procs| && j != i ==> procs'[j] == procs[j]
    ensures Below((Total(ToCommit(rank), procs'), Total(Outdated(t), procs'), Total(ToDo(P, rank, h), procs')),
                  (Total(ToCommit(rank), procs), Total(Outdated(t), procs), Total(ToDo(P, rank, h), procs)))
  {
    var p, p' := procs[i], procs'[i];
    if Measured(ToCommit(rank), p') < Measured(ToCommit(rank), p) {
      TotalDrops(ToCommit(rank), procs, ToCommit(rank), procs', i, 1);
    } else {
      TotalSame(ToCommit(rank), procs, ToCommit(rank), procs');
      if Measured(Outdated(t), p') < Measured(Outdated(t), p) {
        TotalDrops(Outdated(t), procs, Outdated(t), procs', i, 1);
      } else {
        TotalSame(Outdated(t), procs, Outdated(t), procs');
        TotalDrops(ToDo(P, rank, h), procs, ToDo(P, rank, h), procs', i, 1);
      }
    }
  }

  lemma OwnStepDescends(P: Program, b: Build, rank: Context -> nat, s: State, e: Event)
    requires Enabled(P, s, e)
    requires var s' := Apply(P, b, s, e);
             |s'.procs| == |s.procs| && s'.heap == s.heap && CommittedVersions(s') == CommittedVersions(s)
    requires forall j :: 0 <= j < |s.procs| && j != e.pid ==> Apply(P, b, s, e).procs[j] == s.procs[j]
    requires OwnDescent(P, rank, CommittedVersions(s), s.heap, s.procs[e.pid], Apply(P, b, s, e).procs[e.pid])
    ensures Below(Measure(P, rank, Apply(P, b, s, e)), Measure(P, rank, s))
  {
    TotalsDescend(P, rank, CommittedVersions(s), s.heap, s.procs, Apply(P, b, s, e).procs, e.pid);
  }

  lemma AccessShrinks(P: Program, rank: Context -> nat, h: Heap, t: Attempt)
    requires Bounded(P, rank) && !AtSync(P, t.ctx)
    ensures rank(Access(P, h, t).ctx) < rank(t.ctx)
  {
    var v := match P.next(t.ctx) case Load(a) => ViewPage(h, t.copies, a.page)[a.offset] case _ => 0;
    assert Access(P, h, t).ctx == P.after(t.ctx, v);
  }

  /** Segments only get closer to their end. */
  lemma RanksStayKept(P: Program, b: Build, rank: Context -> nat, s: State, e: Event)
    requires Bounded(P, rank) && RanksKept(rank, s)
    ensures RanksKept(rank, Step(P, b, s, e))
  {
    if Enabled(P, s, e) {
      OthersUntouched(P, b, s, e);
      var p, p' := s.procs[e.pid], Step(P, b, s, e).procs[e.pid];
      if e.action.Touch? {
        AccessShrinks(P, rank, s.heap, p.attempt);
      }
      assert p'.attempt.ctx == p'.saved || (p'.saved == p.saved && rank(p'.attempt.ctx) <= rank(p.attempt.ctx));
    }
  }

  lemma TouchDescends(P: Program, b: Build, rank: Context -> nat, s: State, i: nat)
    requires Inv(P, s) && Bounded(P, rank) && Enabled(P, s, Event(i, Touch))
    ensures Below(Measure(P, rank, Apply(P, b, s, Event(i, Touch))), Measure(P, rank, s))
  {
    var s' := Apply(P, b, s, Event(i, Touch));
    CommittedStateKept(P, b, s, Event(i, Touch));
    TouchOwnDescent(P, b, rank, s, i);
    OwnStepDescends(P, b, rank, s, Event(i, Touch));
  }

  lemma TouchOwnDescent(P: Program, b: Build, rank: Context -> nat, s: State, i: nat)
    requires Bounded(P, rank) && Enabled(P, s, Event(i, Touch))
    ensures OwnDescent(P, rank, CommittedVersions(s), s.heap, s.procs[i], Apply(P, b, s, Event(i, Touch)).procs[i])
  {
    AccessShrinks(P, rank, s.heap, s.procs[i].attempt);
  }

  lemma FaultDescends(P: Program, b: Build, rank: Context -> nat, s: State, i: nat)
    requires Inv(P, s) && Enabled(P, s, Event(i, Fault))
    ensures Below(Measure(P, rank, Apply(P, b, s, Event(i, Fault))), Measure(P, rank, s))
  {
    var s' := Apply(P, b, s, Event(i, Fault));
    var k, k' := s.procs[i].tracker, s'.procs[i].tracker;
    CommittedStateKept(P, b, s, Event(i, Fault));
    assert FaultsAhead(k', Next(P, s.procs[i])) < FaultsAhead(k, Next(P, s.procs[i])) by {
      assert ProcessOk(P, CommittedHeap(s), CommittedVersions(s), s.versions, s.procs[i]);
    }
    assert k'.snapshot == k.snapshot;
    OwnStepDescends(P, b, rank, s, Event(i, Fault));
  }

  lemma StartDescends(P: Program, b: Build, rank: Context -> nat, s: State, e: Event)
    requires Inv(P, s) && RanksKept(rank, s) && Bounded(P, rank) && Enabled(P, s, e)
    requires e.action.Snapshot? || e.action.Abort? || e.action.JoinDone?
    ensures Below(Measure(P, rank, Apply(P, b, s, e)), Measure(P, rank, s))
  {
    CommittedStateKept(P, b, s, e);
    assert ProcessOk(P, CommittedHeap(s), CommittedVersions(s), s.versions, s.procs[e.pid]);
    OwnStepDescends(P, b, rank, s, e);
  }

  lemma WaitDescends(P: Program, b: Build, rank: Context -> nat, s: State, e: Event)
    requires Inv(P, s) && Enabled(P, s, e)
    requires e.action.EndSegment? || e.action.PredecessorGone? || e.action.Lock?
    ensures Below(Measure(P, rank, Apply(P, b, s, e)), Measure(P, rank, s))
  {
    CommittedStateKept(P, b, s, e);
    OthersUntouched(P, b, s, e);
    SharedUntouched(P, b, s, e);
    WaitOwnDescent(P, b, rank, s, e);
    OwnStepDescends(P, b, rank, s, e);
  }

  lemma WaitOwnDescent(P: Program, b: Build, rank: Context -> nat, s: State, e: Event)
    requires Enabled(P, s, e) && (e.action.EndSegment? || e.action.PredecessorGone? || e.action.Lock?)
    ensures OwnDescent(P, rank, CommittedVersions(s), s.heap, s.procs[e.pid], Apply(P, b, s, e).procs[e.pid])
  {
  }

  lemma EndDescends(P: Program, b: Build, rank: Context -> nat, s: State, e: Event)
    requires Inv(P, s) && RanksKept(rank, s) && Enabled(P, s, e)
    requires e.action.CommitEmpty? || e.action.Leave?
    ensures Below(Measure(P, rank, Apply(P, b, s, e)), Measure(P, rank, s))
  {
    CommittedStateKept(P, b, s, e);
    OwnStepDescends(P, b, rank, s, e);
  }

  lemma SuccessDescends(P: Program, b: Build, rank: Context -> nat, s: State, i: nat)
    requires RanksKept(rank, s) && Enabled(P, s, Event(i, Validate)) && Consistent(s.procs[i].tracker.readSet, s.versions)
    ensures Below(Measure(P, rank, Apply(P, b, s, Event(i, Validate))), Measure(P, rank, s))
  {
    TotalDrops(ToCommit(rank), s.procs, ToCommit(rank), Apply(P, b, s, Event(i, Validate)).procs, i, 1);
  }

  /** After a failed validation the process has no outdated snapshot any more. */
  lemma FailureOwnDescent(P: Program, b: Build, rank: Context -> nat, s: State, i: nat)
    requires Inv(P, s) && Enabled(P, s, Event(i, Validate)) && !Consistent(s.procs[i].tracker.readSet, s.versions)
    ensures OwnDescent(P, rank, s.versions, s.heap, s.procs[i], Apply(P, b, s, Event(i, Validate)).procs[i])
  {
    var k := s.procs[i].tracker;
    ValidationIsExact(P, s, i);
    assert ProcessOk(P, CommittedHeap(s), CommittedVersions(s), s.versions, s.procs[i]);
    var g :| g in k.readSet && Version(s.versions, g) != k.readSet[g];
    assert Version(k.snapshot, g) != Version(s.versions, g);
  }

  lemma ValidateDescends(P: Program, b: Build, rank: Context -> nat, s: State, i: nat)
    requires Inv(P, s) && RanksKept(rank, s) && Enabled(P, s, Event(i, Validate))
    ensures Below(Measure(P, rank, Apply(P, b, s, Event(i, Validate))), Measure(P, rank, s))
  {
    if Consistent(s.procs[i].tracker.readSet, s.versions) {
      SuccessDescends(P, b, rank, s, i);
    } else {
      assert s.mutex == Held(i) && !Committing(s);
      FailureOwnDescent(P, b, rank, s, i);
      OwnStepDescends(P, b, rank, s, Event(i, Validate));
    }
  }

  lemma CopyDescends(P: Program, b: Build, rank: Context -> nat, s: State, e: Event)
    requires Inv(P, s) && Enabled(P, s, e) && e.action.CopyCell?
    ensures Below(Measure(P, rank, Apply(P, b, s, e)), Measure(P, rank, s))
  {
    var s' := Apply(P, b, s, e);
    var p := s.procs[e.pid];
    assert s.mutex == Held(e.pid) && Committing(s);
    CommittedStateKept(P, b, s, e);
    CopyShrinksWork(s.heap, p.attempt.copies, p.phase.rest, e.action.page, e.action.offset, NUM_PAGES);
    TotalDrops(ToDo(P, rank, s.heap), s.procs, ToDo(P, rank, s'.heap), s'.procs, e.pid, 1);
  }

  lemma BumpDescends(P: Program, b: Build, rank: Context -> nat, s: State, e: Event)
    requires Inv(P, s) && Enabled(P, s, e) && e.action.Bump?
    ensures Below(Measure(P, rank, Apply(P, b, s, e)), Measure(P, rank, s))
  {
    CommittedStateKept(P, b, s, e);
    BumpOwnDescent(P, b, rank, s, e);
    OthersUntouched(P, b, s, e);
    OwnStepDescends(P, b, rank, s, e);
  }

  lemma BumpOwnDescent(P: Program, b: Build, rank: Context -> nat, s: State, e: Event)
    requires Enabled(P, s, e) && e.action.Bump?
    ensures OwnDescent(P, rank, CommittedVersions(s), s.heap, s.procs[e.pid], Apply(P, b, s, e).procs[e.pid])
  {
    var p := s.procs[e.pid];
    BumpShrinksWork(s.heap, p.attempt.copies, p.phase.rest, e.action.bumped, NUM_PAGES);
  }

  lemma UnlockDescends(P: Program, b: Build, rank: Context -> nat, s: State, i: nat)
    requires Inv(P, s) && Enabled(P, s, Event(i, Unlock))
    ensures Below(Measure(P, rank, Apply(P, b, s, Event(i, Unlock))), Measure(P, rank, s))
  {
    CommittedStateKept(P, b, s, Event(i, Unlock));
    OwnStepDescends(P, b, rank, s, Event(i, Unlock));
  }

  lemma ForkDescends(P: Program, b: Build, rank: Context -> nat, s: State, i: nat)
    requires Inv(P, s) && Bounded(P, rank) && Enabled(P, s, Event(i, Fork))
    ensures Below(Measure(P, rank, Apply(P, b, s, Event(i, Fork))), Measure(P, rank, s))
  {
    var s' := Forked(P, b, s, i);
    var m := ToCommit(rank);
    var child := s'.procs[|s.procs|];
    var c := s.procs[i].attempt.ctx;
    assert rank(P.after(c, |s.procs[i].handles|)) + rank(P.next(c).child) < rank(c);
    assert s'.procs[..|s.procs|] == s.procs[i := s'.procs[i]];
    TotalDrops(m, s.procs, m, s'.procs[..|s.procs|], i, Measured(m, child) + 1);
  }

  lemma StepDescends(P: Program, b: Build, rank: Context -> nat, s: State, e: Event)
    requires Inv(P, s) && RanksKept(rank, s) && Bounded(P, rank) && Enabled(P, s, e)
    ensures Below(Measure(P, rank, Apply(P, b, s, e)), Measure(P, rank, s))
  {
    match e.action {
      case Touch => TouchDescends(P, b, rank, s, e.pid);
      case Fault => FaultDescends(P, b, rank, s, e.pid);
      case Validate => ValidateDescends(P, b, rank, s, e.pid);
      case CopyCell(_, _) => CopyDescends(P, b, rank, s, e);
      case Bump(_) => BumpDescends(P, b, rank, s, e);
      case Unlock => UnlockDescends(P, b, rank, s, e.pid);
      case Fork => ForkDescends(P, b, rank, s, e.pid);
      case Snapshot => StartDescends(P, b, rank, s, e);
      case Abort => StartDescends(P, b, rank, s, e);
      case JoinDone => StartDescends(P, b, rank, s, e);
      case CommitEmpty => EndDescends(P, b, rank, s, e);
      case Leave => EndDescends(P, b, rank, s, e);
      case _ => WaitDescends(P, b, rank, s, e);
    }
  }

  // ---- every run is finite ----

  /** The state after the first `n` events of an endless list. */
  function After(P: Program, b: Build, s: State, events: nat -> Event, n: nat): State {
    if n == 0 then s else Step(P, b, After(P, b, s, events, n - 1), events(n - 1))
  }

  lemma {:induction false} ComesToRest(
      P: Program, b: Build, rank: Context -> nat, s: State, events: nat -> Event, n: nat) returns (m: nat)
    requires Bounded(P, rank)
    requires var t := After(P, b, s, events, n); Inv(P, t) && RanksKept(rank, t)
    ensures m >= n && !Enabled(P, After(P, b, s, events, m), events(m))
    decreases Measure(P, rank, After(P, b, s, events, n)).0, Measure(P, rank, After(P, b, s, events, n)).1,
              Measure(P, rank, After(P, b, s, events, n)).2
  {
    var t := After(P, b, s, events, n);
    if Enabled(P, t, events(n)) {
      StepKeeps(P, b, t, events(n));
      RanksStayKept(P, b, rank, t, events(n));
      StepDescends(P, b, rank, t, events(n));
      m := ComesToRest(P, b, rank, s, events, n + 1);
    } else {
      m := n;
    }
  }

  /** No endless list of events is a run: sooner or later it asks for a step that cannot be made. */
  lemma EveryRunIsFinite(P: Program, b: Build, rank: Context -> nat, c: Context, h: Heap, events: nat -> Event)
    requires Bounded(P, rank)
    ensures exists m :: !Enabled(P, After(P, b, Initial(c, h), events, m), events(m))
  {
    InitialOk(P, c, h);
    var m := ComesToRest(P, b, rank, Initial(c, h), events, 0);
  }
}
