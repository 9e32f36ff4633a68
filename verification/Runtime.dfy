/** The library's own objects: the shared state, and the state each process keeps for its
    transaction. Their methods change it in place as the source does, and are proved to make the
    moves of the protocol. */
module Runtime {
  import opened Memory
  import opened Segments
  import opened Tracking
  import Protocol
  import Waiting

  /** Page `g` of a flat heap starts at cell `g * PAGE_SIZE`. */
  function Pages(cells: seq<int>): Heap
    requires |cells| == HEAP_SIZE
  {
    seq(NUM_PAGES, g requires 0 <= g < NUM_PAGES => cells[g * PAGE_SIZE..(g + 1) * PAGE_SIZE])
  }

  /** What the mutex guards. */
  datatype Guarded = Guarded(heap: Heap, versions: Versions, rollbacks: nat)

  /** `global_heap`, `global_page_version`, `rollback_count_` and `mutex`. `found` is history: what the
      process that last locked the mutex found. */
  class Shared {
    var heap: array<int>
    var versions: Versions
    var rollbacks: nat
    var mutex: Protocol.Mutex
    ghost var found: Guarded

    ghost predicate Valid()
      reads this
    {
      heap.Length == HEAP_SIZE
    }

    ghost function Contents(): Heap
      requires Valid()
      reads this, heap
    {
      Pages(heap[..])
    }

    ghost function View(): Guarded
      requires Valid()
      reads this, heap
    {
      Guarded(Contents(), versions, rollbacks)
    }

    constructor ()
      ensures Valid() && fresh(heap) && versions == map[] && rollbacks == 0 && mutex.Free?
    {
      heap := new int[HEAP_SIZE];
      versions := map[];
      rollbacks := 0;
      mutex := Protocol.Free;
      new;
      found := View();
    }

    /** pthread_mutex_lock. Until it returns other processes may hold the mutex and change what it
        guards, so a caller knows no more about that afterwards than `found` says. */
    method Lock(self: nat)
      requires Valid() && mutex != Protocol.Held(self)
      modifies this, heap
      ensures Valid() && heap == old(heap) && mutex == Protocol.Held(self) && found == View()
    {
      mutex := Protocol.Held(self);
      found := View();
    }

    method Unlock(self: nat)
      requires mutex == Protocol.Held(self)
      modifies this`mutex
      ensures mutex.Free?
    {
      mutex := Protocol.Free;
    }

    method ReadCell(a: Address) returns (v: int)
      requires Valid()
      ensures v == Read(Contents(), a)
    {
      v := heap[a.page * PAGE_SIZE + a.offset];
    }

    /** memcpy of one page. */
    method CopyPage(g: Page, data: PageData)
      requires Valid() && mutex.Held?
      modifies heap
      ensures Contents() == old(Contents())[g := data]
    {
      var start := g * PAGE_SIZE;
      var o := 0;
      while o < PAGE_SIZE
        invariant 0 <= o <= PAGE_SIZE
        invariant forall i :: 0 <= i < HEAP_SIZE ==>
          heap[i] == if start <= i < start + o then data[i - start] else old(heap[i])
      {
        heap[start + o] := data[o];
        o := o + 1;
      }
      forall p: Page ensures Contents()[p] == old(Contents())[g := data][p] {
        assert Contents()[p] == heap[..][p * PAGE_SIZE..(p + 1) * PAGE_SIZE];
      }
    }
  }

  /** The heap after the pages in `wrote` have been replaced by a process's view of them. */
  function Replaced(h: Heap, copies: Copies, wrote: set<Page>): Heap {
    seq(NUM_PAGES, g requires 0 <= g < NUM_PAGES => if g in wrote then ViewPage(h, copies, g) else h[g])
  }

  /** A process that has written exactly the pages it copied installs its own view. */
  lemma ReplacedIsOverlay(h: Heap, copies: Copies)
    ensures Replaced(h, copies, copies.Keys) == Overlay(h, copies)
  {
    assert forall g: Page :: Replaced(h, copies, copies.Keys)[g] == Overlay(h, copies)[g];
  }

  lemma ReplaceOneMore(h: Heap, copies: Copies, wrote: set<Page>, g: Page)
    ensures ViewPage(Replaced(h, copies, wrote), copies, g) == ViewPage(h, copies, g)
    ensures Replaced(h, copies, wrote)[g := ViewPage(h, copies, g)] == Replaced(h, copies, wrote + {g})
  {
  }

  lemma ReplaceNothing(h: Heap, copies: Copies)
    ensures Replaced(h, copies, {}) == h
  {
  }

  function Restricted(t: Versions, keys: set<Page>): Versions {
    map g | g in t && g in keys :: t[g]
  }

  lemma RestrictNothing(table: Versions, t: Versions)
    ensures table + Restricted(t, {}) == table
  {
  }

  lemma RestrictOneMore(table: Versions, t: Versions, keys: set<Page>, g: Page)
    requires g in t
    ensures (table + Restricted(t, keys))[g := t[g]] == table + Restricted(t, keys + {g})
  {
  }

  /** What a commit makes of what it found. */
  function Committed(g: Guarded, copies: Copies, wrote: Versions): Guarded {
    Guarded(Replaced(g.heap, copies, wrote.Keys), g.versions + wrote, g.rollbacks)
  }

  /** How AtomicCommit ends, or that it is still waiting for its predecessor. */
  datatype Outcome = Done | RolledBack | StillWaiting

  /** The private state of one process: its version maps, page permissions and private pages. */
  class Transaction {
    const shared: Shared
    const self: nat
    var predecessor: nat
    var readSet: Versions
    var writeSet: Versions
    var snapshot: Versions
    var copies: Copies
    var permissions: array<Permission>

    ghost predicate Valid()
      reads this, shared
    {
      shared.Valid() && permissions.Length == NUM_PAGES
    }

    function Tracked(): Tracker
      reads this
    {
      Tracker(readSet, writeSet, snapshot)
    }

    /** The permissions are the ones the recorded faults stand for. */
    ghost predicate Armed()
      reads this, shared, permissions
    {
      Valid() && forall g: Page :: permissions[g] == Granted(Tracked(), g)
    }

    /** This process is between Lock and Unlock. */
    ghost predicate Holding()
      reads this, shared
    {
      Valid() && shared.mutex == Protocol.Held(self)
    }

    predicate Untouched()
      reads this
    {
      readSet == map[] && writeSet == map[]
    }

    constructor (shared: Shared, self: nat)
      requires shared.Valid()
      ensures this.shared == shared && this.self == self && predecessor == 0 && fresh(permissions) && Armed() && Tracked() == Begun(map[]) && copies == map[]
    {
      this.shared := shared;
      this.self := self;
      predecessor := 0;
      readSet, writeSet, snapshot, copies := map[], map[], map[], map[];
      permissions := new Permission[NUM_PAGES](_ => NoAccess);
    }

    /** The copy of this state that a forked child gets: Create clears the predecessor in it when
        NO_ORDER is defined. */
    constructor Forked(parent: Transaction, self: nat, b: Protocol.Build)
      requires parent.Valid()
      ensures Valid() && this.shared == parent.shared && this.self == self && fresh(permissions)
      ensures predecessor == (if b.NoOrder? then 0 else parent.predecessor)
      ensures Tracked() == parent.Tracked() && copies == parent.copies && permissions[..] == parent.permissions[..]
    {
      this.shared := parent.shared;
      this.self := self;
      predecessor := parent.predecessor;
      readSet, writeSet, snapshot, copies := parent.readSet, parent.writeSet, parent.snapshot, parent.copies;
      permissions := new Permission[NUM_PAGES](g requires 0 <= g < NUM_PAGES reads parent, parent.shared, parent.permissions
                                                 requires parent.Valid() => parent.permissions[g]);
      new;
      if b.NoOrder? {
        predecessor := 0;
      }
    }

    /** Create, in the parent after the fork. */
    method AfterFork(child: nat)
      modifies this`predecessor
      ensures predecessor == child
    {
      predecessor := child;
    }

    // ---- faults ----

    method HandleReads(page: Page)
      requires Armed() && page !in writeSet
      modifies this`readSet, permissions
      ensures Armed() && Tracked() == Tracking.HandleReads(old(Tracked()), page)
    {
      var version := 0;
      if page in snapshot {
        version := snapshot[page];
      }
      readSet := readSet[page := version];
      permissions[page] := ReadOnly;
    }

    method HandleWrites(page: Page)
      requires Armed()
      modifies this`writeSet, permissions
      ensures Armed() && Tracked() == Tracking.HandleWrites(old(Tracked()), page)
    {
      var version := 1;
      if page in snapshot {
        version := snapshot[page] + 1;
      }
      writeSet := writeSet[page := version];
      permissions[page] := ReadWrite;
    }

    /** Called for an address inside the heap whose page does not allow the access. */
    method SegfaultHandler(page: Page)
      requires Armed() && page !in writeSet
      modifies this`readSet, this`writeSet, permissions
      ensures Armed() && Tracked() == Faulted(old(Tracked()), page)
    {
      if page in readSet {
        HandleWrites(page);
      } else {
        HandleReads(page);
      }
    }

    // ---- user accesses ----

    /** A load faults at most once before it goes through, and reads the private copy of the page
        or else the shared page. */
    method Load(a: Address) returns (v: int, faults: nat)
      requires Armed()
      modifies this`readSet, this`writeSet, permissions
      ensures Armed() && v == ViewPage(shared.Contents(), copies, a.page)[a.offset]
      ensures faults == if old(permissions[a.page]) == NoAccess then 1 else 0
      ensures Tracked() == if faults == 1 then Tracking.HandleReads(old(Tracked()), a.page) else old(Tracked())
    {
      faults := 0;
      while permissions[a.page] == NoAccess
        invariant Armed()
        invariant faults == 0 ==> Tracked() == old(Tracked()) && permissions[a.page] == old(permissions[a.page])
        invariant faults > 0 ==> faults == 1 && old(permissions[a.page]) == NoAccess && permissions[a.page] != NoAccess
                                 && Tracked() == Tracking.HandleReads(old(Tracked()), a.page)
        decreases 1 - faults
      {
        SegfaultHandler(a.page);
        faults := faults + 1;
      }
      if a.page in copies {
        v := copies[a.page][a.offset];
      } else {
        v := shared.ReadCell(a);
      }
    }

    /** The contents of one page of the local heap. */
    method LocalPage(g: Page) returns (data: PageData)
      requires Valid()
      ensures data == ViewPage(shared.Contents(), copies, g)
    {
      if g in copies {
        data := copies[g];
      } else {
        data := shared.heap[g * PAGE_SIZE..(g + 1) * PAGE_SIZE];
        assert shared.heap[..][g * PAGE_SIZE..(g + 1) * PAGE_SIZE] == data;
      }
    }

    /** A store faults once for each right its page still lacks, then copies the page on the first
        write and changes the copy only. */
    method Store(a: Address, v: int) returns (faults: nat)
      requires Armed()
      modifies this`readSet, this`writeSet, this`copies, permissions
      ensures Armed()
      ensures copies == old(copies[a.page := ViewPage(shared.Contents(), copies, a.page)[a.offset := v]])
      ensures faults == match old(permissions[a.page]) case NoAccess => 2 case ReadOnly => 1 case ReadWrite => 0
      ensures Tracked() == match faults
                           case 0 => old(Tracked())
                           case 1 => Tracking.HandleWrites(old(Tracked()), a.page)
                           case _ => Tracking.HandleWrites(Tracking.HandleReads(old(Tracked()), a.page), a.page)
    {
      faults := 0;
      if permissions[a.page] == NoAccess {
        SegfaultHandler(a.page);
        faults := faults + 1;
      }
      if permissions[a.page] == ReadOnly {
        SegfaultHandler(a.page);
        faults := faults + 1;
      }
      var page := LocalPage(a.page);
      copies := copies[a.page := page[a.offset := v]];
    }

    // ---- the life cycle ----

    /** Copy the global version table entry by entry. */
    method CopyVersions()
      requires Holding()
      modifies this`snapshot
      ensures snapshot == shared.versions
    {
      snapshot := map[];
      var rest := shared.versions.Keys;
      while rest != {}
        invariant rest <= shared.versions.Keys && Holding()
        invariant snapshot == map g | g in shared.versions && g !in rest :: shared.versions[g]
        decreases |rest|
      {
        var g :| g in rest;
        snapshot := snapshot[g := shared.versions[g]];
        rest := rest - {g};
      }
    }

    /** mprotect of the whole local heap. */
    method Protect(m: Permission)
      requires Valid()
      modifies permissions
      ensures forall g: Page :: permissions[g] == m
    {
      var p := 0;
      while p < NUM_PAGES
        invariant 0 <= p <= NUM_PAGES && Valid()
        invariant forall g :: 0 <= g < p ==> permissions[g] == m
      {
        permissions[p] := m;
        p := p + 1;
      }
    }

    /** Clear the maps, copy the version table found under the mutex, revoke all permissions. */
    method AtomicBegin()
      requires Valid() && shared.mutex != Protocol.Held(self)
      modifies this`readSet, this`writeSet, this`snapshot, permissions, shared, shared.heap
      ensures Armed() && Tracked() == Begun(shared.found.versions)
      ensures shared.mutex.Free? && shared.heap == old(shared.heap) && shared.View() == shared.found
    {
      readSet, writeSet, snapshot := map[], map[], map[];
      shared.Lock(self);
      CopyVersions();
      shared.Unlock(self);
      Protect(NoAccess);
    }

    method IsHeapConsistent() returns (ok: bool)
      requires Holding()
      ensures ok <==> Consistent(readSet, shared.versions)
    {
      var rest := readSet.Keys;
      while rest != {}
        invariant rest <= readSet.Keys
        invariant forall g :: g in readSet && g !in rest && g in shared.versions ==> shared.versions[g] == readSet[g]
        decreases |rest|
      {
        var g :| g in rest;
        if g in shared.versions && shared.versions[g] != readSet[g] {
          return false;
        }
        rest := rest - {g};
      }
      return true;
    }

    /** Remap the local heap: private pages are dropped, everything is readable and writable. */
    method UpdateHeap()
      requires Valid()
      modifies this`copies, permissions
      ensures Valid() && Remapped()
    {
      copies := map[];
      Protect(ReadWrite);
    }

    ghost predicate Remapped()
      reads this, shared, permissions
    {
      Valid() && copies == map[] && forall g: Page :: permissions[g] == ReadWrite
    }

    /** Copy one written page into the shared heap and record its version. */
    method InstallPage(g: Page)
      requires Holding() && g in writeSet
      modifies shared`versions, shared.heap
      ensures Valid() && shared.heap == old(shared.heap)
      ensures shared.Contents() == old(shared.Contents())[g := ViewPage(old(shared.Contents()), copies, g)]
      ensures shared.versions == old(shared.versions)[g := writeSet[g]]
    {
      var data := LocalPage(g);
      shared.CopyPage(g, data);
      shared.versions := shared.versions[g := writeSet[g]];
    }

    /** The loop over the write set; the pages come in any order. */
    method InstallPages()
      requires Holding()
      modifies shared`versions, shared.heap
      ensures Valid() && shared.heap == old(shared.heap)
      ensures shared.Contents() == Replaced(old(shared.Contents()), copies, writeSet.Keys)
      ensures shared.versions == old(shared.versions) + writeSet
    {
      ghost var before := shared.Contents();
      ghost var table := shared.versions;
      ghost var done: set<Page> := {};
      ReplaceNothing(before, copies);
      RestrictNothing(table, writeSet);
      var rest := writeSet.Keys;
      while rest != {}
        invariant Holding() && rest + done == writeSet.Keys && shared.heap == old(shared.heap)
        invariant shared.Contents() == Replaced(before, copies, done)
        invariant shared.versions == table + Restricted(writeSet, done)
        decreases |rest|
      {
        var g :| g in rest;
        ReplaceOneMore(before, copies, done, g);
        RestrictOneMore(table, writeSet, done, g);
        InstallPage(g);
        rest, done := rest - {g}, done + {g};
      }
      assert done == writeSet.Keys;
      assert Restricted(writeSet, done) == writeSet;
    }

    /** Copy the written pages into the shared heap and record their versions, then remap. */
    method CommitHeap()
      requires Holding()
      modifies this`copies, permissions, shared`versions, shared.heap
      ensures Holding() && Remapped() && shared.heap == old(shared.heap)
      ensures shared.Contents() == Replaced(old(shared.Contents()), old(copies), writeSet.Keys)
      ensures shared.versions == old(shared.versions) + writeSet
    {
      InstallPages();
      UpdateHeap();
    }

    method CountRollback()
      requires Holding()
      modifies shared`rollbacks
      ensures shared.rollbacks == old(shared.rollbacks) + 1
    {
      shared.rollbacks := shared.rollbacks + 1;
    }

    /** The locked part of a commit, on what it finds under the mutex. */
    method ValidateAndCommit() returns (committed: bool)
      requires Valid() && shared.mutex != Protocol.Held(self)
      modifies this`copies, permissions, shared, shared.heap
      ensures Valid() && shared.mutex.Free? && shared.heap == old(shared.heap)
      ensures committed <==> Consistent(readSet, shared.found.versions)
      ensures committed ==> Remapped() && shared.View() == Committed(shared.found, old(copies), writeSet)
      ensures !committed ==> copies == old(copies) && permissions[..] == old(permissions[..])
                             && shared.View() == shared.found.(rollbacks := shared.found.rollbacks + 1)
    {
      shared.Lock(self);
      committed := IsHeapConsistent();
      if committed {
        CommitHeap();
      } else {
        CountRollback();
      }
      shared.Unlock(self);
    }

    /** AtomicCommit, up to the end of one round of its wait: nothing to wait for or to lock when the
        segment has touched nothing; otherwise the predecessor first, then the locked part. */
    method AtomicCommit(kernel: Waiting.Kernel) returns (outcome: Outcome)
      requires Valid() && shared.mutex != Protocol.Held(self) && predecessor < |kernel.parents|
      modifies this`copies, permissions, shared, shared.heap, kernel`reaped
      ensures Valid() && shared.mutex != Protocol.Held(self) && shared.heap == old(shared.heap)
      ensures Untouched() || outcome.StillWaiting? ==> unchanged(shared) && unchanged(shared.heap)
      ensures Untouched() ==> outcome.Done? && Remapped() && unchanged(kernel)
      ensures !Untouched() ==> kernel.reaped == old(kernel.ReapedBy(self, predecessor))
      ensures outcome.StillWaiting? <==> !Untouched() && !old(kernel.Over(self, predecessor))
      ensures outcome.StillWaiting? ==> copies == old(copies) && permissions[..] == old(permissions[..])
      ensures !Untouched() && !outcome.StillWaiting? ==>
                shared.mutex.Free? && (outcome.Done? <==> Consistent(readSet, shared.found.versions))
      ensures !Untouched() && outcome.Done? ==> Remapped() && shared.View() == Committed(shared.found, old(copies), writeSet)
      ensures outcome.RolledBack? ==> copies == old(copies) && permissions[..] == old(permissions[..])
                                      && shared.View() == shared.found.(rollbacks := shared.found.rollbacks + 1)
    {
      if Untouched() {
        UpdateHeap();
        return Done;
      }
      var over := kernel.WaitExited(self, predecessor);
      if !over {
        return StillWaiting;
      }
      var committed := ValidateAndCommit();
      outcome := if committed then Done else RolledBack;
    }

    /** Throw the private pages away. */
    method AtomicAbort()
      requires Valid()
      modifies this`copies
      ensures Valid() && copies == map[]
    {
      copies := map[];
    }
  }
}
