/** Over whole runs: the handle tables, with their duplicates, give every join the process that the
    clean tables of the protocol give it. */
module HandleRuns {
  import opened Memory
  import opened Segments
  import opened Tracking
  import opened Protocol
  import opened Invariant
  import H = HandleTable

  type Callers = seq<H.Caller>

  /** What a step does to the handle table of the process that makes it. A snapshot is the end of
      AtomicBegin, after which a create that has forked pushes; the handle of the next create is stored
      before its segment commits. */
  function TableEvents(P: Program, s: State, e: Event): seq<H.Event>
    requires Enabled(P, s, e)
  {
    match e.action
    case Snapshot => [H.Push]
    case CommitEmpty => if Next(P, s.procs[e.pid]).Create? then [H.Reserve] else []
    case EndSegment => if Next(P, s.procs[e.pid]).Create? then [H.Reserve] else []
    case Abort => [H.Rollback]
    case Fork => [H.Forked(|s.procs|)]
    case JoinDone => [H.Joined]
    case _ => []
  }

  function StepTables(P: Program, s: State, callers: Callers, e: Event): Callers
    requires |callers| == |s.procs|
  {
    if !Enabled(P, s, e) then callers
    else
      var moved := callers[e.pid := H.HappenAll(callers[e.pid], TableEvents(P, s, e))];
      if e.action.Fork? then moved + [H.ChildOf(callers[e.pid])] else moved
  }

  lemma SameLength(P: Program, b: Build, s: State, callers: Callers, e: Event)
    requires |callers| == |s.procs|
    ensures |StepTables(P, s, callers, e)| == |Step(P, b, s, e).procs|
  {
    if Enabled(P, s, e) {
      OthersUntouched(P, b, s, e);
    }
  }

  /** The tables of all processes after a run; each fork copies the table of the parent. */
  function Tables(P: Program, b: Build, c: Context, h: Heap, schedule: Schedule): (callers: Callers)
    ensures |callers| == |Run(P, b, Initial(c, h), schedule).procs|
  {
    if schedule == [] then [H.FRESH]
    else
      var before, e := schedule[..|schedule| - 1], schedule[|schedule| - 1];
      var s := Run(P, b, Initial(c, h), before);
      SameLength(P, b, s, Tables(P, b, c, h, before), e);
      StepTables(P, s, Tables(P, b, c, h, before), e)
  }

  // ---- the clean table ----

  /** The processes forked by the creates of this process, in order, whether or not they have returned. */
  function CleanTable(c: H.Caller): seq<nat> {
    H.Forks(c.completed) + (if c.returning.Some? && c.returning.value !in c.completed then [c.returning.value.tid] else [])
  }

  predicate TableOk(P: Program, p: Process, c: H.Caller) {
    && H.CallerOk(c)
    && CleanTable(c) == p.handles
    && (Attempting(p.phase) || AtSegmentEnd(p.phase) ==> H.Free(c))
    && (p.phase.Beginning? || p.phase.Running? ==> c.reserved.None?)
    && (p.phase.Beginning? ==> !c.pushed)
    && (AtSegmentEnd(p.phase) ==> (c.reserved.Some? <==> Next(P, p).Create?))
  }

  predicate AllTablesOk(P: Program, s: State, callers: Callers) {
    |callers| == |s.procs| && forall i :: 0 <= i < |s.procs| ==> TableOk(P, s.procs[i], callers[i])
  }

  lemma OneHappens(c: H.Caller, e: H.Event)
    ensures H.HappenAll(c, [e]) == H.Happen(c, e)
  {
    assert [e][..0] == [];
    assert H.HappenAll(c, []) == c;
  }

  /** A push completes the create and a repeated push changes nothing a join can see. */
  lemma PushKeepsClean(c: H.Caller)
    requires H.CallerOk(c) && c.reserved.None?
    ensures var c' := H.Happen(c, H.Push);
            H.CallerOk(c') && H.Free(c') && CleanTable(c') == CleanTable(c) && c'.reserved.None?
  {
    H.HappenKeeps(c, H.Push);
    if !H.Free(c) && c.returning.value !in c.completed {
      assert H.Forks(c.completed + [c.returning.value]) == H.Forks(c.completed) + [c.returning.value.tid];
    }
  }

  lemma ForkExtendsClean(c: H.Caller, tid: nat)
    requires H.CallerOk(c) && H.Free(c) && c.reserved.Some?
    ensures var c' := H.Happen(c, H.Forked(tid));
            H.CallerOk(c') && CleanTable(c') == CleanTable(c) + [tid] && c'.reserved.None? && !c'.pushed
    ensures H.CallerOk(H.ChildOf(c)) && CleanTable(H.ChildOf(c)) == CleanTable(c)
  {
    H.HappenKeeps(c, H.Forked(tid));
    H.NewHandle(c);
  }

  lemma OtherEventsKeepClean(c: H.Caller, e: H.Event)
    requires H.CallerOk(c) && !e.Push? && !e.Forked?
    requires e.Joined? || e.Reserve? ==> H.Free(c)
    ensures H.CallerOk(H.Happen(c, e)) && CleanTable(H.Happen(c, e)) == CleanTable(c)
  {
    H.HappenKeeps(c, e);
  }

  lemma BeginKeepsTable(P: Program, b: Build, s: State, e: Event, c: H.Caller)
    requires Enabled(P, s, e) && TableOk(P, s.procs[e.pid], c) && (e.action.Snapshot? || e.action.Abort? || e.action.JoinDone?)
    ensures TableOk(P, Apply(P, b, s, e).procs[e.pid], H.HappenAll(c, TableEvents(P, s, e)))
  {
    var x := if e.action.Snapshot? then H.Push else if e.action.Abort? then H.Rollback else H.Joined;
    OneHappens(c, x);
    if e.action.Snapshot? {
      PushKeepsClean(c);
    } else {
      OtherEventsKeepClean(c, x);
    }
  }

  lemma EndKeepsTable(P: Program, b: Build, s: State, e: Event, c: H.Caller)
    requires Enabled(P, s, e) && TableOk(P, s.procs[e.pid], c) && (e.action.CommitEmpty? || e.action.EndSegment?)
    ensures TableOk(P, Apply(P, b, s, e).procs[e.pid], H.HappenAll(c, TableEvents(P, s, e)))
  {
    OneHappens(c, H.Reserve);
    OtherEventsKeepClean(c, H.Reserve);
    assert H.HappenAll(c, []) == c;
  }

  lemma ForkKeepsTables(P: Program, b: Build, s: State, i: nat, c: H.Caller)
    requires Enabled(P, s, Event(i, Fork)) && TableOk(P, s.procs[i], c)
    ensures TableOk(P, Forked(P, b, s, i).procs[i], H.HappenAll(c, [H.Forked(|s.procs|)]))
    ensures TableOk(P, Forked(P, b, s, i).procs[|s.procs|], H.ChildOf(c))
  {
    OneHappens(c, H.Forked(|s.procs|));
    ForkExtendsClean(c, |s.procs|);
  }

  predicate MovesTable(a: Action) {
    a.Snapshot? || a.Abort? || a.JoinDone? || a.CommitEmpty? || a.EndSegment? || a.Fork?
  }

  lemma OtherStepKeepsTable(P: Program, b: Build, s: State, e: Event, c: H.Caller)
    requires Enabled(P, s, e) && TableOk(P, s.procs[e.pid], c) && !MovesTable(e.action)
    ensures TableOk(P, Apply(P, b, s, e).procs[e.pid], c)
  {
    var p, p' := s.procs[e.pid], Apply(P, b, s, e).procs[e.pid];
    assert p'.handles == p.handles;
    assert AtSegmentEnd(p'.phase) ==> AtSegmentEnd(p.phase) && Next(P, p') == Next(P, p);
  }

  lemma OwnTableKept(P: Program, b: Build, s: State, e: Event, c: H.Caller)
    requires Enabled(P, s, e) && TableOk(P, s.procs[e.pid], c)
    ensures TableOk(P, Apply(P, b, s, e).procs[e.pid], H.HappenAll(c, TableEvents(P, s, e)))
  {
    if e.action.CommitEmpty? || e.action.EndSegment? {
      EndKeepsTable(P, b, s, e, c);
    } else if e.action.Fork? {
      ForkKeepsTables(P, b, s, e.pid, c);
    } else if MovesTable(e.action) {
      BeginKeepsTable(P, b, s, e, c);
    } else {
      OtherStepKeepsTable(P, b, s, e, c);
      assert H.HappenAll(c, []) == c;
    }
  }

  lemma {:induction false} TablesOk(P: Program, b: Build, c: Context, h: Heap, schedule: Schedule)
    ensures AllTablesOk(P, Run(P, b, Initial(c, h), schedule), Tables(P, b, c, h, schedule))
  {
    if schedule == [] {
      assert CleanTable(H.FRESH) == [];
    } else {
      var before, e := schedule[..|schedule| - 1], schedule[|schedule| - 1];
      TablesOk(P, b, c, h, before);
      TablesStepOk(P, b, Run(P, b, Initial(c, h), before), Tables(P, b, c, h, before), e);
    }
  }

  lemma TablesStepOk(P: Program, b: Build, s: State, callers: Callers, e: Event)
    requires AllTablesOk(P, s, callers)
    ensures AllTablesOk(P, Step(P, b, s, e), StepTables(P, s, callers, e))
  {
    if Enabled(P, s, e) {
      OthersUntouched(P, b, s, e);
      OwnTableKept(P, b, s, e, callers[e.pid]);
      if e.action.Fork? {
        ForkKeepsTables(P, b, s, e.pid, callers[e.pid]);
      }
    }
  }

  /** In every run, over the whole fork tree: a process about to join the handle of its `k`-th create
      finds in the real table, with the duplicates that rollbacks left, the process that the clean
      table names. */
  lemma {:induction false} JoinsFindTheSameProcess(P: Program, b: Build, c: Context, h: Heap, schedule: Schedule, i: nat)
    requires var s := Run(P, b, Initial(c, h), schedule);
             i < |s.procs| && s.procs[i].phase.Synced? && Next(P, s.procs[i]).Join?
    ensures var s := Run(P, b, Initial(c, h), schedule);
            var table := Tables(P, b, c, h, schedule)[i];
            && |table.completed| == |s.procs[i].handles|
            && (forall k :: 0 <= k < |table.completed| ==>
                  var handle := table.completed[k].handle;
                  handle < |table.gthreads| && table.gthreads[handle] == s.procs[i].handles[k])
            && (forall j, k :: 0 <= j < k < |table.completed| ==> table.completed[j].handle < table.completed[k].handle)
  {
    TablesOk(P, b, c, h, schedule);
    var s, table := Run(P, b, Initial(c, h), schedule), Tables(P, b, c, h, schedule)[i];
    assert TableOk(P, s.procs[i], table);
    assert CleanTable(table) == H.Forks(table.completed);
    forall k | 0 <= k < |table.completed|
      ensures table.completed[k].handle < |table.gthreads| && table.gthreads[table.completed[k].handle] == s.procs[i].handles[k]
    {
      assert H.Names(table, table.completed[k]);
    }
  }

  // ---- exactly what is in the tables ----

  /** The validations failed so far by process `i` and the processes it descends from. */
  function LineAborts(s: State, i: nat): nat
    requires i < |s.procs|
  {
    s.procs[i].aborts + (if s.procs[i].parent < i then LineAborts(s, s.procs[i].parent) else 0)
  }

  lemma {:induction false} LineAbortsGrow(s: State, s': State, i: nat)
    requires i < |s.procs| <= |s'.procs|
    requires forall j :: 0 <= j < |s.procs| ==>
               s'.procs[j].parent == s.procs[j].parent && s.procs[j].aborts <= s'.procs[j].aborts
    ensures LineAborts(s, i) + (s'.procs[i].aborts - s.procs[i].aborts) <= LineAborts(s', i)
  {
    if s.procs[i].parent < i {
      LineAbortsGrow(s, s', s.procs[i].parent);
    }
  }

  lemma OwnAborts(P: Program, b: Build, s: State, e: Event)
    requires Enabled(P, s, e)
    ensures var p, p' := s.procs[e.pid], Apply(P, b, s, e).procs[e.pid];
            p'.parent == p.parent &&
            p'.aborts == p.aborts + (if p'.phase.Aborting? && !p.phase.Aborting? then 1 else 0)
  {
  }

  lemma AbortsGrow(P: Program, b: Build, s: State, e: Event)
    requires Enabled(P, s, e)
    ensures var s' := Apply(P, b, s, e);
            |s.procs| <= |s'.procs| &&
            (forall j :: 0 <= j < |s.procs| ==>
               s'.procs[j].parent == s.procs[j].parent && s.procs[j].aborts <= s'.procs[j].aborts)
    ensures Apply(P, b, s, e).procs[e.pid].phase.Aborting? && !s.procs[e.pid].phase.Aborting? ==>
              Apply(P, b, s, e).procs[e.pid].aborts == s.procs[e.pid].aborts + 1
  {
    OthersUntouched(P, b, s, e);
    OwnAborts(P, b, s, e);
  }

  /** The entries of a table, with the one still to be repeated, against its creates and `n` rollbacks. */
  predicate Within(p: Process, c: H.Caller, n: nat) {
    H.Exact(c) && |c.gthreads| + (if H.WillRepeat(c) || p.phase.Aborting? then 1 else 0) <= |c.completed| + n
  }

  predicate AllWithin(s: State, callers: Callers) {
    |callers| == |s.procs| && forall i :: 0 <= i < |s.procs| ==> Within(s.procs[i], callers[i], LineAborts(s, i))
  }

  lemma OwnWithin(P: Program, b: Build, s: State, e: Event, c: H.Caller, n: nat)
    requires Enabled(P, s, e) && TableOk(P, s.procs[e.pid], c) && Within(s.procs[e.pid], c, n)
    ensures var p, p' := s.procs[e.pid], Apply(P, b, s, e).procs[e.pid];
            Within(p', H.HappenAll(c, TableEvents(P, s, e)),
                   n + (if p'.phase.Aborting? && !p.phase.Aborting? then 1 else 0))
  {
    var events := TableEvents(P, s, e);
    assert H.HappenAll(c, []) == c;
    if events != [] {
      assert events == [events[0]];
      OneHappens(c, events[0]);
      H.HappenKeepsExact(c, events[0]);
      H.SurplusStep(c, events[0]);
    }
    AbortPhase(P, b, s, e);
  }

  lemma AbortPhase(P: Program, b: Build, s: State, e: Event)
    requires Enabled(P, s, e)
    ensures e.action.Abort? <==> s.procs[e.pid].phase.Aborting?
    ensures Apply(P, b, s, e).procs[e.pid].phase.Aborting? ==> e.action.Validate?
  {
  }

  lemma StepWithin(P: Program, b: Build, s: State, callers: Callers, e: Event)
    requires AllTablesOk(P, s, callers) && AllWithin(s, callers)
    ensures AllWithin(Step(P, b, s, e), StepTables(P, s, callers, e))
  {
    if Enabled(P, s, e) {
      var s', callers' := Apply(P, b, s, e), StepTables(P, s, callers, e);
      SameLength(P, b, s, callers, e);
      OthersUntouched(P, b, s, e);
      AbortsGrow(P, b, s, e);
      OwnWithin(P, b, s, e, callers[e.pid], LineAborts(s, e.pid));
      forall i | 0 <= i < |s'.procs| ensures Within(s'.procs[i], callers'[i], LineAborts(s', i)) {
        if i < |s.procs| {
          LineAbortsGrow(s, s', i);
          assert Within(s.procs[i], callers[i], LineAborts(s, i));
        } else {
          LineAbortsGrow(s, s', e.pid);
          H.HappenKeepsExact(callers[e.pid], H.Joined);
          assert Within(s.procs[e.pid], callers[e.pid], LineAborts(s, e.pid));
          ChildLine(P, b, s, e.pid);
        }
      }
    }
  }

  lemma ChildLine(P: Program, b: Build, s: State, i: nat)
    requires Enabled(P, s, Event(i, Fork))
    ensures var s' := Forked(P, b, s, i);
            LineAborts(s', |s.procs|) == LineAborts(s', i) && s'.procs[|s.procs|].phase.Beginning?
  {
  }

  lemma {:induction false} TablesWithin(P: Program, b: Build, c: Context, h: Heap, schedule: Schedule)
    ensures AllWithin(Run(P, b, Initial(c, h), schedule), Tables(P, b, c, h, schedule))
  {
    if schedule != [] {
      var before := schedule[..|schedule| - 1];
      TablesOk(P, b, c, h, before);
      TablesWithin(P, b, c, h, before);
      StepWithin(P, b, Run(P, b, Initial(c, h), before), Tables(P, b, c, h, before), schedule[|schedule| - 1]);
    }
  }

  /** In every run a table holds the processes that the creates of its line forked, in order, with at most
      one repetition for each rollback in that line; where nobody in the line has rolled back it is exactly
      the clean table, and handles count the creates. */
  lemma {:induction false} TablesAreExact(P: Program, b: Build, c: Context, h: Heap, schedule: Schedule, i: nat)
    requires i < |Run(P, b, Initial(c, h), schedule).procs|
    ensures var s, table := Run(P, b, Initial(c, h), schedule), Tables(P, b, c, h, schedule)[i];
            && (forall k :: 0 <= k < |table.completed| ==> H.Fills(table, k))
            && |table.completed| <= |table.gthreads| <= |table.completed| + LineAborts(s, i)
            && (LineAborts(s, i) == 0 ==>
                  table.gthreads == H.Forks(table.completed) &&
                  forall k :: 0 <= k < |table.completed| ==> table.completed[k].handle == k)
            && CleanTable(table) == s.procs[i].handles
  {
    TablesWithin(P, b, c, h, schedule);
    TablesOk(P, b, c, h, schedule);
    var s, table := Run(P, b, Initial(c, h), schedule), Tables(P, b, c, h, schedule)[i];
    assert Within(s.procs[i], table, LineAborts(s, i)) && TableOk(P, s.procs[i], table);
    H.CleanTableIsForks(table);
  }
}
