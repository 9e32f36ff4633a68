/** Threads that keep to disjoint pages never roll back. */
module Footprints {
  import opened Memory
  import opened Segments
  import opened Tracking
  import opened Protocol
  import opened Invariant
  import opened VersionCounts
  import BumpAllocator
  import Division

  /** The pages each process may touch, and those it may write. */
  datatype Areas = Areas(touches: nat -> set<Page>, writes: nat -> set<Page>)

  /** Nobody writes a page that another process touches. */
  ghost predicate Disjoint(areas: Areas) {
    forall i: nat, j: nat :: i != j ==> areas.writes(i) !! areas.touches(j)
  }

  predicate Keeps(P: Program, s: State, areas: Areas) {
    forall i :: 0 <= i < |s.procs| && s.procs[i].phase.Running? && IsAccess(Next(P, s.procs[i])) ==>
      var op := Next(P, s.procs[i]);
      op.a.page in areas.touches(i) && (op.Store? ==> op.a.page in areas.writes(i))
  }

  /** Every access of the run keeps to the area of its process. */
  predicate KeepsThroughout(P: Program, b: Build, s: State, schedule: Schedule, areas: Areas) {
    Keeps(P, Run(P, b, s, schedule), areas) &&
    (schedule != [] ==> KeepsThroughout(P, b, s, schedule[..|schedule| - 1], areas))
  }

  predicate InArea(i: nat, p: Process, areas: Areas) {
    Attempting(p.phase) ==>
      p.tracker.readSet.Keys <= areas.touches(i) && p.tracker.writeSet.Keys <= areas.writes(i)
  }

  predicate AllInArea(s: State, areas: Areas) {
    && (forall i :: 0 <= i < |s.procs| ==> InArea(i, s.procs[i], areas))
    && (forall k :: 0 <= k < |s.log| ==> s.log[k].wrote <= areas.writes(s.log[k].pid))
  }

  lemma OwnSetsKept(P: Program, b: Build, s: State, e: Event)
    requires Enabled(P, s, e) && !e.action.Fault? && !e.action.Validate?
    ensures var p, p' := s.procs[e.pid], Apply(P, b, s, e).procs[e.pid];
            Attempting(p'.phase) ==> p'.tracker == Begun(s.versions) || (Attempting(p.phase) && p'.tracker == p.tracker)
    ensures e.action.Fork? ==> Apply(P, b, s, e).procs[|s.procs|].phase.Beginning?
    ensures var s' := Apply(P, b, s, e); s'.log == s.log || s'.log == s.log + [Commit(e.pid, {})]
    ensures Apply(P, b, s, e).rollbacks == s.rollbacks
  {
  }

  lemma ValidationSucceeds(P: Program, s: State, i: nat, areas: Areas)
    requires Inv(P, s) && CountsOk(s) && Disjoint(areas) && AllInArea(s, areas)
    requires i < |s.procs| && s.procs[i].phase.Validating?
    ensures Consistent(s.procs[i].tracker.readSet, s.versions)
  {
    assert InArea(i, s.procs[i], areas);
    forall k | 0 <= k < |s.log| && s.log[k].pid != i ensures s.log[k].wrote !! s.procs[i].tracker.readSet.Keys {
      assert areas.writes(s.log[k].pid) !! areas.touches(i);
    }
    if !Consistent(s.procs[i].tracker.readSet, s.versions) {
      var k, g := FailureHasCulprit(P, s, i);
      assert false;
    }
  }

  lemma FaultStaysInArea(P: Program, b: Build, s: State, i: nat, areas: Areas)
    requires AllInArea(s, areas) && Keeps(P, s, areas) && Enabled(P, s, Event(i, Fault))
    ensures AllInArea(Apply(P, b, s, Event(i, Fault)), areas)
  {
    var p := s.procs[i];
    var s' := Apply(P, b, s, Event(i, Fault));
    assert InArea(i, p, areas);
    assert s'.procs[i].tracker.readSet.Keys <= p.tracker.readSet.Keys + {Next(P, p).a.page};
  }

  lemma OthersStayInArea(P: Program, b: Build, s: State, e: Event, areas: Areas)
    requires AllInArea(s, areas) && Enabled(P, s, e) && !e.action.Fault? && !e.action.Validate?
    ensures AllInArea(Apply(P, b, s, e), areas)
  {
    var s' := Apply(P, b, s, e);
    OthersUntouched(P, b, s, e);
    OwnSetsKept(P, b, s, e);
    assert InArea(e.pid, s.procs[e.pid], areas);
    forall j | 0 <= j < |s'.procs| ensures InArea(j, s'.procs[j], areas) {
      assert j < |s.procs| && j != e.pid ==> InArea(j, s.procs[j], areas);
    }
  }

  lemma ValidateStaysInArea(P: Program, b: Build, s: State, i: nat, areas: Areas)
    requires Inv(P, s) && CountsOk(s) && Disjoint(areas) && AllInArea(s, areas)
    requires Enabled(P, s, Event(i, Validate))
    ensures AllInArea(Apply(P, b, s, Event(i, Validate)), areas)
    ensures Apply(P, b, s, Event(i, Validate)).rollbacks == s.rollbacks
  {
    ValidationSucceeds(P, s, i, areas);
    assert InArea(i, s.procs[i], areas);
  }

  lemma {:induction false} StepStaysInArea(P: Program, b: Build, s: State, e: Event, areas: Areas)
    requires Inv(P, s) && CountsOk(s) && Disjoint(areas)
    requires AllInArea(s, areas) && Keeps(P, s, areas)
    ensures AllInArea(Step(P, b, s, e), areas)
    ensures Step(P, b, s, e).rollbacks == s.rollbacks
  {
    if Enabled(P, s, e) {
      match e.action {
        case Validate => ValidateStaysInArea(P, b, s, e.pid, areas);
        case Fault => FaultStaysInArea(P, b, s, e.pid, areas);
        case _ =>
          OwnSetsKept(P, b, s, e);
          OthersStayInArea(P, b, s, e, areas);
      }
    }
  }

  /** If for every two processes the pages one writes are disjoint from those the other touches,
      no validation ever fails. */
  lemma {:induction false} DisjointNeverRollsBack(
      P: Program, b: Build, c: Context, h: Heap, schedule: Schedule, areas: Areas)
    requires Disjoint(areas) && KeepsThroughout(P, b, Initial(c, h), schedule, areas)
    ensures Run(P, b, Initial(c, h), schedule).rollbacks == 0
    ensures AllInArea(Run(P, b, Initial(c, h), schedule), areas)
  {
    if schedule != [] {
      var before := schedule[..|schedule| - 1];
      DisjointNeverRollsBack(P, b, c, h, before, areas);
      RunCounts(P, b, c, h, before);
      StepStaysInArea(P, b, Run(P, b, Initial(c, h), before), schedule[|schedule| - 1], areas);
    }
  }

  // ---- processes that keep to their own subheaps ----

  const PAGES_PER_SUBHEAP: nat := BumpAllocator.SUBHEAP_SIZE / PAGE_SIZE

  function SubheapPages(k: nat): set<Page> {
    set g: Page | g / PAGES_PER_SUBHEAP == k
  }

  /** An address inside subheap `k` lies on one of its pages. */
  lemma SubheapAddress(base: nat, k: nat, address: nat)
    requires k < BumpAllocator.NUM_SUBHEAP
    requires BumpAllocator.SubheapStart(base, k) <= address < BumpAllocator.SubheapStart(base, k + 1)
    ensures (address - base) / PAGE_SIZE < NUM_PAGES && (address - base) / PAGE_SIZE in SubheapPages(k)
  {
    var g, r := (address - base) / PAGE_SIZE, (address - base) % PAGE_SIZE;
    assert PAGES_PER_SUBHEAP == 8 && BumpAllocator.SUBHEAP_SIZE == 8 * PAGE_SIZE;
    assert address - base == g * PAGE_SIZE + r;
    assert 8 * k <= g < 8 * (k + 1);
    Division.QuotientUnique(g, 8, k, g - 8 * k);
  }

  /** Process `i` of pid `pids[i]` touches only its own subheap. */
  function SubheapAreas(pids: seq<nat>): Areas {
    var own := (i: nat) => if i < |pids| then SubheapPages(BumpAllocator.Slot(pids[i])) else {};
    Areas(own, own)
  }

  /** Processes in different slots that keep to the pages of their own subheaps never roll back. */
  lemma OwnSubheapsNeverRollBack(P: Program, b: Build, c: Context, h: Heap, schedule: Schedule, pids: seq<nat>)
    requires forall i, j :: 0 <= i < j < |pids| ==> BumpAllocator.Slot(pids[i]) != BumpAllocator.Slot(pids[j])
    requires KeepsThroughout(P, b, Initial(c, h), schedule, SubheapAreas(pids))
    ensures Run(P, b, Initial(c, h), schedule).rollbacks == 0
  {
    var areas := SubheapAreas(pids);
    forall i: nat, j: nat | i != j ensures areas.writes(i) !! areas.touches(j) {
      if i < |pids| && j < |pids| {
        assert i < j || j < i;
      }
    }
    DisjointNeverRollsBack(P, b, c, h, schedule, areas);
  }

  // ---- processes that keep to the blocks they have been given ----

  /** Where an address of the heap lies in the memory of a process that has the heap at `base`. */
  function ByteAddress(base: nat, a: Address): nat {
    base + a.page * PAGE_SIZE + a.offset
  }

  predicate InBlock(block: BumpAllocator.Block, address: nat) {
    block.start <= address < block.start + block.size
  }

  predicate InOwnBlock(arena: BumpAllocator.Arena, i: nat, address: nat) {
    exists m :: 0 <= m < |arena.blocks| && arena.blocks[m].owner == i && InBlock(arena.blocks[m], address)
  }

  /** Every access about to be made lies in a block that xxmalloc returned to its process. */
  predicate KeepsToBlocks(P: Program, s: State, arena: BumpAllocator.Arena) {
    forall i :: 0 <= i < |s.procs| && s.procs[i].phase.Running? && IsAccess(Next(P, s.procs[i])) ==>
      InOwnBlock(arena, i, ByteAddress(arena.base, Next(P, s.procs[i]).a))
  }

  predicate KeepsToBlocksThroughout(P: Program, b: Build, s: State, schedule: Schedule, arena: BumpAllocator.Arena) {
    KeepsToBlocks(P, Run(P, b, s, schedule), arena) &&
    (schedule != [] ==> KeepsToBlocksThroughout(P, b, s, schedule[..|schedule| - 1], arena))
  }

  function Pids(arena: BumpAllocator.Arena): seq<nat> {
    seq(|arena.procs|, i requires 0 <= i < |arena.procs| => arena.procs[i].pid)
  }

  lemma SubheapByte(base: nat, k: nat, a: Address)
    requires k < BumpAllocator.NUM_SUBHEAP
    requires BumpAllocator.SubheapStart(base, k) <= ByteAddress(base, a) < BumpAllocator.SubheapStart(base, k + 1)
    ensures a.page in SubheapPages(k)
  {
    SubheapAddress(base, k, ByteAddress(base, a));
    PageOfByte(a);
  }

  /** The page of an address in an own block is one of the own subheap. */
  lemma OwnBlockPage(base: nat, pid: nat, events: seq<BumpAllocator.Event>, i: nat, a: Address)
    requires base % BumpAllocator.MIN_ALIGNED_SIZE == 0
    requires var arena := BumpAllocator.HappenAll(BumpAllocator.Alone(base, pid), events);
             BumpAllocator.OwnSlots(arena) && BumpAllocator.Fits(arena) && InOwnBlock(arena, i, ByteAddress(base, a))
    ensures var arena := BumpAllocator.HappenAll(BumpAllocator.Alone(base, pid), events);
            i < |arena.procs| && a.page in SubheapPages(BumpAllocator.Slot(arena.procs[i].pid))
  {
    var arena := BumpAllocator.HappenAll(BumpAllocator.Alone(base, pid), events);
    BumpAllocator.BlocksAreDisjoint(base, pid, events);
    var m :| 0 <= m < |arena.blocks| && arena.blocks[m].owner == i && InBlock(arena.blocks[m], ByteAddress(base, a));
    SubheapByte(base, BumpAllocator.Slot(arena.procs[i].pid), a);
  }

  lemma PageOfByte(a: Address)
    ensures (a.page * PAGE_SIZE + a.offset) / PAGE_SIZE == a.page
  {
    Division.QuotientUnique(a.page * PAGE_SIZE + a.offset, PAGE_SIZE, a.page, a.offset);
  }

  lemma KeepsToOwnPages(P: Program, s: State, base: nat, pid: nat, events: seq<BumpAllocator.Event>)
    requires base % BumpAllocator.MIN_ALIGNED_SIZE == 0
    requires var arena := BumpAllocator.HappenAll(BumpAllocator.Alone(base, pid), events);
             BumpAllocator.OwnSlots(arena) && BumpAllocator.Fits(arena) && KeepsToBlocks(P, s, arena)
    ensures Keeps(P, s, SubheapAreas(Pids(BumpAllocator.HappenAll(BumpAllocator.Alone(base, pid), events))))
  {
    var arena := BumpAllocator.HappenAll(BumpAllocator.Alone(base, pid), events);
    BumpAllocator.BaseKept(base, pid, events);
    forall i | 0 <= i < |s.procs| && s.procs[i].phase.Running? && IsAccess(Next(P, s.procs[i]))
      ensures Next(P, s.procs[i]).a.page in SubheapAreas(Pids(arena)).touches(i)
    {
      OwnBlockPage(base, pid, events, i, Next(P, s.procs[i]).a);
    }
  }

  lemma {:induction false} KeepsToOwnPagesThroughout(
      P: Program, b: Build, s: State, schedule: Schedule, base: nat, pid: nat, events: seq<BumpAllocator.Event>)
    requires base % BumpAllocator.MIN_ALIGNED_SIZE == 0
    requires var arena := BumpAllocator.HappenAll(BumpAllocator.Alone(base, pid), events);
             BumpAllocator.OwnSlots(arena) && BumpAllocator.Fits(arena) && KeepsToBlocksThroughout(P, b, s, schedule, arena)
    ensures var arena := BumpAllocator.HappenAll(BumpAllocator.Alone(base, pid), events);
            KeepsThroughout(P, b, s, schedule, SubheapAreas(Pids(arena)))
  {
    KeepsToOwnPages(P, Run(P, b, s, schedule), base, pid, events);
    if schedule != [] {
      KeepsToOwnPagesThroughout(P, b, s, schedule[..|schedule| - 1], base, pid, events);
    }
  }

  /** Processes with slots of their own that access only the blocks they were given, by any
      interleaving of allocations, forks and rollbacks that overflows no subheap, never roll back. */
  lemma {:induction false} OwnBlocksNeverRollBack(
      P: Program, b: Build, c: Context, h: Heap, schedule: Schedule, base: nat, pid: nat, events: seq<BumpAllocator.Event>)
    requires base % BumpAllocator.MIN_ALIGNED_SIZE == 0
    requires var arena := BumpAllocator.HappenAll(BumpAllocator.Alone(base, pid), events);
             && BumpAllocator.OwnSlots(arena) && BumpAllocator.Fits(arena)
             && KeepsToBlocksThroughout(P, b, Initial(c, h), schedule, arena)
    ensures Run(P, b, Initial(c, h), schedule).rollbacks == 0
  {
    var arena := BumpAllocator.HappenAll(BumpAllocator.Alone(base, pid), events);
    KeepsToOwnPagesThroughout(P, b, Initial(c, h), schedule, base, pid, events);
    forall i, j | 0 <= i < j < |Pids(arena)| ensures BumpAllocator.Slot(Pids(arena)[i]) != BumpAllocator.Slot(Pids(arena)[j]) {
      assert BumpAllocator.Slot(arena.procs[i].pid) != BumpAllocator.Slot(arena.procs[j].pid);
    }
    OwnSubheapsNeverRollBack(P, b, c, h, schedule, Pids(arena));
  }
}
