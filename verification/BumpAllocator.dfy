/** The bump allocator: every process advances its own copy of the subheap pointers, copied at fork
    and never rolled back. */
module BumpAllocator {
  import Memory
  import Division

  const NUM_SUBHEAP: nat := 16
  const SUBHEAP_SIZE: nat := Memory.HEAP_SIZE / NUM_SUBHEAP
  const MIN_ALIGNED_SIZE: nat := 16

  function RoundUp(x: nat, y: nat): nat
    requires y > 0
  {
    if x % y == 0 then x else x + (y - x % y)
  }

  lemma RoundUpIsMultiple(x: nat, y: nat) returns (c: nat)
    requires y > 0
    ensures RoundUp(x, y) == c * y && RoundUp(x, y) % y == 0 && x <= RoundUp(x, y) < x + y
  {
    var q := x / y;
    assert x == q * y + x % y;
    c := if x % y == 0 then q else q + 1;
    assert (q + 1) * y == q * y + y;
    Division.QuotientUnique(c * y, y, c, 0);
  }

  /** Rounding up gives the least multiple that is not below. */
  lemma {:induction false} RoundUpIsLeast(x: nat, y: nat)
    requires y > 0
    ensures RoundUp(x, y) % y == 0 && x <= RoundUp(x, y) < x + y
    ensures forall m: nat :: m % y == 0 && x <= m ==> RoundUp(x, y) <= m
  {
    var c := RoundUpIsMultiple(x, y);
    forall m: nat | m % y == 0 && x <= m ensures RoundUp(x, y) <= m {
      if m < RoundUp(x, y) {
        Division.MultiplesApart(m, c, y);
      }
    }
  }

  function Slot(pid: nat): (k: nat)
    ensures k < NUM_SUBHEAP
  {
    pid % NUM_SUBHEAP
  }

  /** Where subheap `k` of a heap at `base` starts. */
  function SubheapStart(base: nat, k: nat): nat {
    base + k * SUBHEAP_SIZE
  }

  type Cursors = c: seq<nat> | |c| == NUM_SUBHEAP witness seq(NUM_SUBHEAP, _ => 0)

  function Fresh(base: nat): Cursors {
    seq(NUM_SUBHEAP, k requires 0 <= k < NUM_SUBHEAP => SubheapStart(base, k))
  }

  /** The pointers after one allocation. */
  function Bumped(c: Cursors, pid: nat, size: nat): Cursors {
    c[Slot(pid) := c[Slot(pid)] + RoundUp(size, MIN_ALIGNED_SIZE)]
  }

  // ---- the allocator of one process ----

  class Allocator {
    const localHeap: nat
    var subheaps: array<nat>

    ghost predicate Valid()
      reads this
    {
      subheaps.Length == NUM_SUBHEAP
    }

    /** GlobalHeapInit: lay the subheaps out one after the other. */
    constructor (localHeap: nat)
      ensures Valid() && fresh(subheaps) && this.localHeap == localHeap && subheaps[..] == Fresh(localHeap)
    {
      this.localHeap := localHeap;
      subheaps := new nat[NUM_SUBHEAP];
      new;
      var cur := localHeap;
      var i := 0;
      while i < NUM_SUBHEAP
        invariant 0 <= i <= NUM_SUBHEAP && Valid() && fresh(subheaps)
        invariant cur == SubheapStart(localHeap, i)
        invariant forall k :: 0 <= k < i ==> subheaps[k] == SubheapStart(localHeap, k)
      {
        subheaps[i] := cur;
        cur := cur + SUBHEAP_SIZE;
        i := i + 1;
      }
    }

    /** What a forked process finds in its copy of the memory. */
    constructor Forked(parent: Allocator)
      requires parent.Valid()
      ensures Valid() && fresh(subheaps) && localHeap == parent.localHeap && subheaps[..] == parent.subheaps[..]
    {
      localHeap := parent.localHeap;
      subheaps := new nat[NUM_SUBHEAP](k requires 0 <= k < NUM_SUBHEAP && parent.Valid() reads parent, parent.subheaps =>
                                         parent.subheaps[k]);
    }

    /** Returns the pointer of the pid's subheap and moves it by the least multiple of the smallest
        block that is enough; the other pointers stay. */
    method Xxmalloc(pid: nat, size: nat) returns (ret: nat)
      requires Valid()
      modifies subheaps
      ensures ret == old(subheaps[pid % NUM_SUBHEAP])
      ensures var next := subheaps[pid % NUM_SUBHEAP];
              ret + size <= next < ret + size + MIN_ALIGNED_SIZE && (next - ret) % MIN_ALIGNED_SIZE == 0
      ensures forall k :: 0 <= k < NUM_SUBHEAP && k != pid % NUM_SUBHEAP ==> subheaps[k] == old(subheaps[k])
      ensures subheaps[..] == Bumped(old(subheaps[..]), pid, size)
    {
      var index := pid % NUM_SUBHEAP;
      ret := subheaps[index];
      var alignedSize := RoundUp(size, MIN_ALIGNED_SIZE);
      RoundUpIsLeast(size, MIN_ALIGNED_SIZE);
      subheaps[index] := subheaps[index] + alignedSize;
    }
  }

  // ---- a fork tree of allocators ----

  datatype Owner = Owner(pid: nat, cursors: Cursors)

  /** A block handed out to process `owner`, with its rounded size. */
  datatype Block = Block(owner: nat, start: nat, size: nat)

  datatype Arena = Arena(base: nat, procs: seq<Owner>, blocks: seq<Block>)

  /** A rollback restores the heap pages but not the pointers. */
  datatype Event = Malloc(i: nat, size: nat) | Fork(parent: nat, pid: nat) | Rollback(rolled: nat)

  function Happen(a: Arena, e: Event): Arena {
    match e
    case Malloc(i, size) =>
      if i >= |a.procs| then a
      else
        var p := a.procs[i];
        a.(procs := a.procs[i := p.(cursors := Bumped(p.cursors, p.pid, size))],
           blocks := a.blocks + [Block(i, p.cursors[Slot(p.pid)], RoundUp(size, MIN_ALIGNED_SIZE))])
    case Fork(i, pid) =>
      if i >= |a.procs| then a else a.(procs := a.procs + [a.procs[i].(pid := pid)])
    case Rollback(_) => a
  }

  function HappenAll(a: Arena, events: seq<Event>): Arena {
    if events == [] then a else Happen(HappenAll(a, events[..|events| - 1]), events[|events| - 1])
  }

  function Alone(base: nat, pid: nat): Arena {
    Arena(base, [Owner(pid, Fresh(base))], [])
  }

  /** No two processes share a slot. */
  predicate OwnSlots(a: Arena) {
    forall i, j :: 0 <= i < j < |a.procs| ==> Slot(a.procs[i].pid) != Slot(a.procs[j].pid)
  }

  /** What each process has allocated fits its subheap. */
  predicate Fits(a: Arena) {
    forall i :: 0 <= i < |a.procs| ==>
      a.procs[i].cursors[Slot(a.procs[i].pid)] <= SubheapStart(a.base, Slot(a.procs[i].pid)) + SUBHEAP_SIZE
  }

  predicate Apart(b: Block, c: Block) {
    b.start + b.size <= c.start || c.start + c.size <= b.start
  }

  predicate BlockOk(a: Arena, b: Block) {
    && b.owner < |a.procs|
    && b.start % MIN_ALIGNED_SIZE == 0 && b.size % MIN_ALIGNED_SIZE == 0
    && var p := a.procs[b.owner];
       SubheapStart(a.base, Slot(p.pid)) <= b.start && b.start + b.size <= p.cursors[Slot(p.pid)]
  }

  predicate Unowned(a: Arena, k: nat) {
    forall j :: 0 <= j < |a.procs| ==> Slot(a.procs[j].pid) != k
  }

  /** The pointer of a process's own slot is aligned; pointers of slots nobody owns are untouched. */
  predicate CursorsOk(a: Arena, i: nat) {
    i < |a.procs| &&
    var p := a.procs[i];
    && p.cursors[Slot(p.pid)] % MIN_ALIGNED_SIZE == 0 && SubheapStart(a.base, Slot(p.pid)) <= p.cursors[Slot(p.pid)]
    && forall k :: 0 <= k < NUM_SUBHEAP && Unowned(a, k) ==> p.cursors[k] == SubheapStart(a.base, k)
  }

  predicate ArenaOk(a: Arena) {
    && (forall i :: 0 <= i < |a.procs| ==> CursorsOk(a, i))
    && (forall m :: 0 <= m < |a.blocks| ==> BlockOk(a, a.blocks[m]))
    && (forall m, n :: 0 <= m < n < |a.blocks| && a.blocks[m].owner == a.blocks[n].owner ==>
          Apart(a.blocks[m], a.blocks[n]))
  }

  /** No process is forgotten and none changes its pid. */
  predicate SamePids(a: Arena, a': Arena) {
    a'.base == a.base && |a.procs| <= |a'.procs| && forall j :: 0 <= j < |a.procs| ==> a'.procs[j].pid == a.procs[j].pid
  }

  lemma UnownedBefore(a: Arena, a': Arena, k: nat)
    requires SamePids(a, a') && Unowned(a', k)
    ensures Unowned(a, k)
  {
    forall j | 0 <= j < |a.procs| ensures Slot(a.procs[j].pid) != k {
      assert Slot(a'.procs[j].pid) != k;
    }
  }

  lemma RoundUpAligned(p: nat, size: nat)
    requires p % MIN_ALIGNED_SIZE == 0
    ensures RoundUp(size, MIN_ALIGNED_SIZE) % MIN_ALIGNED_SIZE == 0
    ensures (p + RoundUp(size, MIN_ALIGNED_SIZE)) % MIN_ALIGNED_SIZE == 0
  {
    var q, r := p / MIN_ALIGNED_SIZE, (size + MIN_ALIGNED_SIZE - 1) / MIN_ALIGNED_SIZE;
    assert RoundUp(size, MIN_ALIGNED_SIZE) == r * MIN_ALIGNED_SIZE;
    Division.QuotientUnique(r * MIN_ALIGNED_SIZE, MIN_ALIGNED_SIZE, r, 0);
    Division.QuotientUnique((q + r) * MIN_ALIGNED_SIZE, MIN_ALIGNED_SIZE, q + r, 0);
  }

  lemma CursorsKept(a: Arena, a': Arena, i: nat)
    requires CursorsOk(a, i) && SamePids(a, a')
    requires var p, p' := a.procs[i], a'.procs[i];
             p'.cursors == p.cursors || exists size: nat :: p'.cursors == Bumped(p.cursors, p.pid, size)
    ensures CursorsOk(a', i)
  {
    var p, p' := a.procs[i], a'.procs[i];
    if p'.cursors != p.cursors {
      var size: nat :| p'.cursors == Bumped(p.cursors, p.pid, size);
      RoundUpAligned(p.cursors[Slot(p.pid)], size);
    }
    forall k | 0 <= k < NUM_SUBHEAP && Unowned(a', k) ensures p'.cursors[k] == SubheapStart(a.base, k) {
      UnownedBefore(a, a', k);
      assert Slot(p'.pid) != k;
    }
  }

  /** The new block starts where the blocks of its owner ended so far. */
  lemma NewBlockOk(a: Arena, i: nat, size: nat)
    requires ArenaOk(a) && i < |a.procs|
    ensures var a' := Happen(a, Malloc(i, size));
            (forall m :: 0 <= m < |a'.blocks| ==> BlockOk(a', a'.blocks[m])) &&
            (forall m :: 0 <= m < |a.blocks| && a.blocks[m].owner == i ==> Apart(a.blocks[m], a'.blocks[|a.blocks|]))
  {
    var a' := Happen(a, Malloc(i, size));
    assert CursorsOk(a, i);
    RoundUpAligned(a.procs[i].cursors[Slot(a.procs[i].pid)], size);
    forall m | 0 <= m < |a.blocks| ensures BlockOk(a', a.blocks[m]) {
      assert BlockOk(a, a.blocks[m]);
    }
    forall m | 0 <= m < |a.blocks| && a.blocks[m].owner == i ensures Apart(a.blocks[m], a'.blocks[|a.blocks|]) {
      assert BlockOk(a, a.blocks[m]);
    }
  }

  lemma MallocKeeps(a: Arena, i: nat, size: nat)
    requires ArenaOk(a) && i < |a.procs|
    ensures ArenaOk(Happen(a, Malloc(i, size)))
  {
    var a' := Happen(a, Malloc(i, size));
    assert SamePids(a, a');
    forall j | 0 <= j < |a'.procs| ensures CursorsOk(a', j) {
      assert CursorsOk(a, j);
      CursorsKept(a, a', j);
    }
    NewBlockOk(a, i, size);
  }

  lemma ForkKeeps(a: Arena, i: nat, pid: nat)
    requires ArenaOk(a) && i < |a.procs| && a.base % MIN_ALIGNED_SIZE == 0 && Unowned(a, Slot(pid))
    ensures ArenaOk(Happen(a, Fork(i, pid)))
  {
    var a' := Happen(a, Fork(i, pid));
    assert SamePids(a, a');
    assert CursorsOk(a, i);
    forall j | 0 <= j < |a.procs| ensures CursorsOk(a', j) {
      assert CursorsOk(a, j);
      CursorsKept(a, a', j);
    }
    ChildCursors(a, a', i, pid);
    forall m | 0 <= m < |a.blocks| ensures BlockOk(a', a.blocks[m]) {
      assert BlockOk(a, a.blocks[m]);
    }
  }

  /** A child in a slot of its own starts with that subheap untouched. */
  lemma ChildCursors(a: Arena, a': Arena, i: nat, pid: nat)
    requires CursorsOk(a, i) && SamePids(a, a') && a.base % MIN_ALIGNED_SIZE == 0 && Unowned(a, Slot(pid))
    requires |a'.procs| == |a.procs| + 1 && a'.procs[|a.procs|] == Owner(pid, a.procs[i].cursors)
    ensures CursorsOk(a', |a.procs|)
  {
    SubheapAligned(a.base, Slot(pid));
    forall k | 0 <= k < NUM_SUBHEAP && Unowned(a', k) ensures a.procs[i].cursors[k] == SubheapStart(a.base, k) {
      UnownedBefore(a, a', k);
    }
  }

  lemma HappenKeepsPids(a: Arena, e: Event)
    ensures SamePids(a, Happen(a, e))
  {
  }

  lemma OwnSlotsBefore(a: Arena, a': Arena)
    requires SamePids(a, a') && OwnSlots(a')
    ensures OwnSlots(a)
  {
    forall i, j | 0 <= i < j < |a.procs| ensures Slot(a.procs[i].pid) != Slot(a.procs[j].pid) {
      assert Slot(a'.procs[i].pid) != Slot(a'.procs[j].pid);
    }
  }

  lemma HappenKeeps(a: Arena, e: Event)
    requires ArenaOk(a) && a.base % MIN_ALIGNED_SIZE == 0 && OwnSlots(Happen(a, e))
    ensures ArenaOk(Happen(a, e))
  {
    match e {
      case Malloc(i, size) =>
        if i < |a.procs| {
          MallocKeeps(a, i, size);
        }
      case Fork(i, pid) =>
        if i < |a.procs| {
          var a' := Happen(a, e);
          forall j | 0 <= j < |a.procs| ensures Slot(a.procs[j].pid) != Slot(pid) {
            assert Slot(a'.procs[j].pid) != Slot(a'.procs[|a.procs|].pid);
          }
          ForkKeeps(a, i, pid);
        }
      case Rollback(_) =>
    }
  }

  lemma SubheapAligned(base: nat, k: nat)
    requires base % MIN_ALIGNED_SIZE == 0
    ensures SubheapStart(base, k) % MIN_ALIGNED_SIZE == 0
  {
    assert SUBHEAP_SIZE == 2048 * MIN_ALIGNED_SIZE;
    Division.QuotientUnique(SubheapStart(base, k), MIN_ALIGNED_SIZE, base / MIN_ALIGNED_SIZE + 2048 * k, 0);
  }

  lemma {:induction false} AloneOk(base: nat, pid: nat)
    requires base % MIN_ALIGNED_SIZE == 0
    ensures ArenaOk(Alone(base, pid))
  {
    SubheapAligned(base, Slot(pid));
    assert CursorsOk(Alone(base, pid), 0);
  }

  lemma {:induction false} EventsKeep(base: nat, pid: nat, events: seq<Event>)
    requires base % MIN_ALIGNED_SIZE == 0 && OwnSlots(HappenAll(Alone(base, pid), events))
    ensures ArenaOk(HappenAll(Alone(base, pid), events)) && HappenAll(Alone(base, pid), events).base == base
  {
    if events == [] {
      AloneOk(base, pid);
    } else {
      var a := HappenAll(Alone(base, pid), events[..|events| - 1]);
      HappenKeepsPids(a, events[|events| - 1]);
      OwnSlotsBefore(a, Happen(a, events[|events| - 1]));
      EventsKeep(base, pid, events[..|events| - 1]);
      HappenKeeps(a, events[|events| - 1]);
    }
  }

  lemma {:induction false} BaseKept(base: nat, pid: nat, events: seq<Event>)
    ensures HappenAll(Alone(base, pid), events).base == base
  {
    if events != [] {
      BaseKept(base, pid, events[..|events| - 1]);
    }
  }

  /** For any interleaving of allocations, forks and rollbacks: while no two processes share a slot
      and no subheap overflows, all blocks ever handed out are aligned, pairwise disjoint and inside
      the subheap of their owner. */
  lemma BlocksAreDisjoint(base: nat, pid: nat, events: seq<Event>)
    requires base % MIN_ALIGNED_SIZE == 0
    requires var a := HappenAll(Alone(base, pid), events); OwnSlots(a) && Fits(a)
    ensures var a := HappenAll(Alone(base, pid), events);
            && (forall m, n :: 0 <= m < n < |a.blocks| ==> Apart(a.blocks[m], a.blocks[n]))
            && (forall m :: 0 <= m < |a.blocks| ==>
                  var b := a.blocks[m];
                  b.start % MIN_ALIGNED_SIZE == 0 && b.owner < |a.procs| &&
                  var k := Slot(a.procs[b.owner].pid);
                  SubheapStart(base, k) <= b.start && b.start + b.size <= SubheapStart(base, k + 1))
  {
    var a := HappenAll(Alone(base, pid), events);
    EventsKeep(base, pid, events);
    assert forall m :: 0 <= m < |a.blocks| ==> BlockOk(a, a.blocks[m]);
    forall m, n | 0 <= m < n < |a.blocks| ensures Apart(a.blocks[m], a.blocks[n]) {
      var b, c := a.blocks[m], a.blocks[n];
      if b.owner != c.owner {
        var i, j := Slot(a.procs[b.owner].pid), Slot(a.procs[c.owner].pid);
        assert i != j;
        SubheapsApart(base, if i < j then i else j, if i < j then j else i);
      }
    }
  }

  lemma SubheapsApart(base: nat, i: nat, j: nat)
    requires i < j
    ensures SubheapStart(base, i) + SUBHEAP_SIZE <= SubheapStart(base, j)
  {
  }

  // ---- the objects of a process show its part of the arena ----

  ghost predicate Shown(h: Allocator, a: Arena, i: nat)
    reads h, h.subheaps
  {
    h.Valid() && i < |a.procs| && h.localHeap == a.base && h.subheaps[..] == a.procs[i].cursors
  }

  method Start(localHeap: nat, pid: nat) returns (h: Allocator)
    ensures Shown(h, Alone(localHeap, pid), 0)
  {
    h := new Allocator(localHeap);
  }

  /** xxmalloc makes the Malloc event, and the new block starts at what it returns. */
  method Allocate(h: Allocator, size: nat, pid: nat, ghost a: Arena, ghost i: nat) returns (ret: nat)
    requires Shown(h, a, i) && pid == a.procs[i].pid
    modifies h.subheaps
    ensures Shown(h, Happen(a, Malloc(i, size)), i)
    ensures var blocks := Happen(a, Malloc(i, size)).blocks;
            |blocks| == |a.blocks| + 1 && blocks[..|a.blocks|] == a.blocks &&
            blocks[|a.blocks|].owner == i && blocks[|a.blocks|].start == ret &&
            ret + blocks[|a.blocks|].size == h.subheaps[pid % NUM_SUBHEAP]
  {
    ret := h.Xxmalloc(pid, size);
  }

  /** A fork leaves parent and child with equal pointers. */
  method Split(h: Allocator, pid: nat, ghost a: Arena, ghost i: nat) returns (child: Allocator)
    requires Shown(h, a, i)
    ensures Shown(h, Happen(a, Fork(i, pid)), i) && Shown(child, Happen(a, Fork(i, pid)), |a.procs|)
  {
    child := new Allocator.Forked(h);
  }

  // ---- one line of descent, with shared slots ----

  /** The blocks handed to process `i`, or to a process it descends from before the fork, in order. */
  function Line(base: nat, pid: nat, events: seq<Event>, i: nat): seq<nat> {
    if events == [] then []
    else
      var before := events[..|events| - 1];
      var a := HappenAll(Alone(base, pid), before);
      match events[|events| - 1]
      case Malloc(j, _) => Line(base, pid, before, i) + (if j == i < |a.procs| then [|a.blocks|] else [])
      case Fork(j, _) => Line(base, pid, before, if j < |a.procs| == i then j else i)
      case Rollback(_) => Line(base, pid, before, i)
  }

  predicate Handed(a: Arena, m: nat) {
    m < |a.blocks| && a.blocks[m].owner < |a.procs|
  }

  function SlotOf(a: Arena, m: nat): nat
    requires Handed(a, m)
  {
    Slot(a.procs[a.blocks[m].owner].pid)
  }

  /** The memory that these blocks take from slot `k`. */
  function Used(a: Arena, line: seq<nat>, k: nat): nat {
    if line == [] then 0
    else
      var m := line[|line| - 1];
      Used(a, line[..|line| - 1], k) + (if Handed(a, m) && SlotOf(a, m) == k then a.blocks[m].size else 0)
  }

  /** The blocks of a line lie end to end in their slots, from the start of the subheap to the pointer. */
  predicate EndToEnd(a: Arena, i: nat, line: seq<nat>) {
    && i < |a.procs|
    && (forall j :: 0 <= j < |line| ==>
          Handed(a, line[j]) &&
          a.blocks[line[j]].start == SubheapStart(a.base, SlotOf(a, line[j])) + Used(a, line[..j], SlotOf(a, line[j])))
    && (forall k :: 0 <= k < NUM_SUBHEAP ==> a.procs[i].cursors[k] == SubheapStart(a.base, k) + Used(a, line, k))
  }

  predicate Extends(a: Arena, a': Arena) {
    SamePids(a, a') && a.blocks <= a'.blocks
  }

  lemma {:induction false} UsedKept(a: Arena, a': Arena, line: seq<nat>, k: nat)
    requires Extends(a, a') && forall j :: 0 <= j < |line| ==> Handed(a, line[j])
    ensures Used(a', line, k) == Used(a, line, k)
  {
    if line != [] {
      UsedKept(a, a', line[..|line| - 1], k);
      assert Handed(a, line[|line| - 1]);
    }
  }

  lemma HappenExtends(a: Arena, e: Event)
    ensures Extends(a, Happen(a, e))
  {
  }

  /** A process whose pointers have not moved. */
  lemma EndToEndKept(a: Arena, a': Arena, i: nat, i': nat, line: seq<nat>)
    requires EndToEnd(a, i, line) && Extends(a, a') && i' < |a'.procs| && a'.procs[i'].cursors == a.procs[i].cursors
    ensures EndToEnd(a', i', line)
  {
    forall j | 0 <= j < |line|
      ensures Handed(a', line[j]) &&
              a'.blocks[line[j]].start == SubheapStart(a.base, SlotOf(a', line[j])) + Used(a', line[..j], SlotOf(a', line[j]))
    {
      assert Handed(a, line[j]) && SlotOf(a', line[j]) == SlotOf(a, line[j]);
      UsedKept(a, a', line[..j], SlotOf(a, line[j]));
    }
    forall k | 0 <= k < NUM_SUBHEAP ensures a'.procs[i'].cursors[k] == SubheapStart(a.base, k) + Used(a', line, k) {
      UsedKept(a, a', line, k);
    }
  }

  lemma UsedOneMore(a: Arena, line: seq<nat>, m: nat, k: nat)
    requires Handed(a, m)
    ensures Used(a, line + [m], k) == Used(a, line, k) + (if SlotOf(a, m) == k then a.blocks[m].size else 0)
  {
    assert (line + [m])[..|line|] == line;
  }

  lemma MallocEndToEnd(a: Arena, i: nat, size: nat, line: seq<nat>)
    requires EndToEnd(a, i, line)
    ensures EndToEnd(Happen(a, Malloc(i, size)), i, line + [|a.blocks|])
  {
    var a', m := Happen(a, Malloc(i, size)), |a.blocks|;
    var line' := line + [m];
    assert Handed(a', m);
    forall j | 0 <= j < |line'|
      ensures Handed(a', line'[j]) &&
              a'.blocks[line'[j]].start == SubheapStart(a.base, SlotOf(a', line'[j])) + Used(a', line'[..j], SlotOf(a', line'[j]))
    {
      if j < |line| {
        assert Handed(a, line[j]) && SlotOf(a', line[j]) == SlotOf(a, line[j]) && line'[..j] == line[..j];
        UsedKept(a, a', line[..j], SlotOf(a, line[j]));
      } else {
        assert line'[..j] == line;
        UsedKept(a, a', line, SlotOf(a', m));
      }
    }
    forall k | 0 <= k < NUM_SUBHEAP ensures a'.procs[i].cursors[k] == SubheapStart(a.base, k) + Used(a', line', k) {
      UsedKept(a, a', line, k);
      UsedOneMore(a', line, m, k);
    }
  }

  /** The process whose line process `i` has had until this event. */
  function Before(a: Arena, e: Event, i: nat): nat {
    if e.Fork? && e.parent < |a.procs| == i then e.parent else i
  }

  function Longer(a: Arena, e: Event, i: nat, line: seq<nat>): seq<nat> {
    if e.Malloc? && e.i == i < |a.procs| then line + [|a.blocks|] else line
  }

  lemma {:induction false} LineStep(base: nat, pid: nat, events: seq<Event>, i: nat)
    requires events != []
    ensures var before, e := events[..|events| - 1], events[|events| - 1];
            var a := HappenAll(Alone(base, pid), before);
            Line(base, pid, events, i) == Longer(a, e, i, Line(base, pid, before, Before(a, e, i)))
  {
  }

  lemma StepEndToEnd(a: Arena, e: Event, i: nat, line: seq<nat>)
    requires i < |Happen(a, e).procs| && EndToEnd(a, Before(a, e, i), line)
    ensures EndToEnd(Happen(a, e), i, Longer(a, e, i, line))
  {
    if e.Malloc? && e.i == i {
      MallocEndToEnd(a, i, e.size, line);
    } else {
      HappenExtends(a, e);
      EndToEndKept(a, Happen(a, e), Before(a, e, i), i, line);
    }
  }

  lemma AloneEndToEnd(base: nat, pid: nat)
    ensures EndToEnd(Alone(base, pid), 0, [])
  {
  }

  lemma {:induction false} LinesAreEndToEnd(base: nat, pid: nat, events: seq<Event>, i: nat)
    requires i < |HappenAll(Alone(base, pid), events).procs|
    ensures EndToEnd(HappenAll(Alone(base, pid), events), i, Line(base, pid, events, i))
  {
    if events == [] {
      AloneEndToEnd(base, pid);
    } else {
      var before, e := events[..|events| - 1], events[|events| - 1];
      var a := HappenAll(Alone(base, pid), before);
      LineStep(base, pid, events, i);
      LinesAreEndToEnd(base, pid, before, Before(a, e, i));
      StepEndToEnd(a, e, i, Line(base, pid, before, Before(a, e, i)));
    }
  }

  lemma {:induction false} UsedGrows(a: Arena, line: seq<nat>, j: nat, k: nat)
    requires j < |line| && Handed(a, line[j]) && SlotOf(a, line[j]) == k
    ensures Used(a, line[..j], k) + a.blocks[line[j]].size <= Used(a, line, k)
  {
    var n := |line| - 1;
    if j < n {
      UsedGrows(a, line[..n], j, k);
      assert line[..n][..j] == line[..j];
    }
  }

  /** Whatever slots are shared: the blocks a process was handed or inherited lie below its pointers, and
      any two of them in one slot are disjoint. */
  lemma {:induction false} LineIsDisjoint(base: nat, pid: nat, events: seq<Event>, i: nat)
    requires i < |HappenAll(Alone(base, pid), events).procs|
    ensures var a, line := HappenAll(Alone(base, pid), events), Line(base, pid, events, i);
            && (forall j :: 0 <= j < |line| ==>
                  Handed(a, line[j]) &&
                  SubheapStart(base, SlotOf(a, line[j])) <= a.blocks[line[j]].start &&
                  a.blocks[line[j]].start + a.blocks[line[j]].size <= a.procs[i].cursors[SlotOf(a, line[j])])
            && (forall j, l :: 0 <= j < l < |line| && SlotOf(a, line[j]) == SlotOf(a, line[l]) ==>
                  a.blocks[line[j]].start + a.blocks[line[j]].size <= a.blocks[line[l]].start)
  {
    var a, line := HappenAll(Alone(base, pid), events), Line(base, pid, events, i);
    LinesAreEndToEnd(base, pid, events, i);
    BaseKept(base, pid, events);
    forall j | 0 <= j < |line|
      ensures a.blocks[line[j]].start + a.blocks[line[j]].size <= a.procs[i].cursors[SlotOf(a, line[j])]
    {
      UsedGrows(a, line, j, SlotOf(a, line[j]));
    }
    forall j, l | 0 <= j < l < |line| && SlotOf(a, line[j]) == SlotOf(a, line[l])
      ensures a.blocks[line[j]].start + a.blocks[line[j]].size <= a.blocks[line[l]].start
    {
      UsedGrows(a, line[..l], j, SlotOf(a, line[j]));
      assert line[..l][..j] == line[..j];
    }
  }

  /** The condition on slots is needed: whenever two processes share one, two further allocations
      overlap. */
  lemma SharedSlotOverlaps(a: Arena, i: nat, j: nat) returns (x: Event, y: Event)
    requires i < |a.procs| && j < |a.procs| && i != j && Slot(a.procs[i].pid) == Slot(a.procs[j].pid)
    ensures x.Malloc? && y.Malloc?
    ensures var a' := HappenAll(a, [x, y]);
            |a'.blocks| == |a.blocks| + 2 && !Apart(a'.blocks[|a.blocks|], a'.blocks[|a.blocks| + 1])
  {
    var k := Slot(a.procs[i].pid);
    var ci, cj := a.procs[i].cursors[k], a.procs[j].cursors[k];
    var low, high := if ci <= cj then i else j, if ci <= cj then j else i;
    x := Malloc(low, (if ci <= cj then cj - ci else ci - cj) + 1);
    y := Malloc(high, 1);
    assert [x, y][..1] == [x] && [x][..0] == [];
    assert HappenAll(a, [x]) == Happen(HappenAll(a, []), x);
    assert HappenAll(a, [x, y]) == Happen(Happen(a, x), y);
  }
}
