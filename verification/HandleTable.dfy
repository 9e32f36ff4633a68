/** The table behind pthread_t handles. It lives outside the transactional heap: a rolled back
    segment runs its push_back again, and the entry it appended before stays. */
module HandleTable {

  /** One pthread_create: the handle it stored for its caller and the process it forked. */
  datatype Call = Call(handle: nat, tid: nat)

  datatype Option<T> = None | Some(value: T)

  /** One process. The current segment may begin inside a create that has forked and still has to
      push; `pushed` and `reserved` say how far this attempt got; `completed` is history: the creates
      that have returned at least once. */
  datatype Caller = Caller(
    gthreads: seq<nat>, returning: Option<Call>, pushed: bool, reserved: Option<nat>, completed: seq<Call>)

  datatype Event =
    | Push               // gthreads.push_back(t), then pthread_create returns
    | Reserve            // *thread = gthreads.size()
    | Rollback           // the segment starts over
    | Forked(tid: nat)   // the segment commits inside a create, which forks
    | Joined             // the segment commits inside a join, which returns

  predicate Free(c: Caller) {
    c.returning.None? || c.pushed
  }

  function Happen(c: Caller, e: Event): Caller {
    match e
    case Push =>
      if Free(c) then c
      else
        var call := c.returning.value;
        c.(gthreads := c.gthreads + [call.tid], pushed := true,
           completed := if call in c.completed then c.completed else c.completed + [call])
    case Reserve => if Free(c) && c.reserved.None? then c.(reserved := Some(|c.gthreads|)) else c
    case Rollback => c.(pushed := false, reserved := None)
    case Forked(tid) =>
      if Free(c) && c.reserved.Some?
      then c.(returning := Some(Call(c.reserved.value, tid)), pushed := false, reserved := None) else c
    case Joined => if Free(c) && c.reserved.None? then c.(returning := None, pushed := false) else c
  }

  function HappenAll(c: Caller, events: seq<Event>): Caller {
    if events == [] then c else Happen(HappenAll(c, events[..|events| - 1]), events[|events| - 1])
  }

  predicate Names(c: Caller, call: Call) {
    call.handle < |c.gthreads| && c.gthreads[call.handle] == call.tid
  }

  predicate CallerOk(c: Caller) {
    && (forall k :: 0 <= k < |c.completed| ==> Names(c, c.completed[k]))
    && (forall j, k :: 0 <= j < k < |c.completed| ==> c.completed[j].handle < c.completed[k].handle)
    && (c.reserved.Some? ==> Free(c) && c.reserved.value == |c.gthreads|)
    && (c.returning.Some? ==> c.returning.value in c.completed || c.returning.value.handle == |c.gthreads|)
    && (c.pushed && c.returning.Some? ==> c.returning.value in c.completed)
  }

  /** A child starts with a copy of its parent's table. */
  function ChildOf(c: Caller): Caller {
    c.(returning := None, pushed := false, reserved := None)
  }

  lemma HappenKeeps(c: Caller, e: Event)
    requires CallerOk(c)
    ensures CallerOk(Happen(c, e)) && CallerOk(ChildOf(c))
    ensures c.gthreads <= Happen(c, e).gthreads && c.completed <= Happen(c, e).completed
  {
    if e.Push? && !Free(c) {
      PushKeeps(c);
    }
    forall k | 0 <= k < |c.completed| ensures Names(ChildOf(c), c.completed[k]) {
      assert Names(c, c.completed[k]);
    }
  }

  lemma PushKeeps(c: Caller)
    requires CallerOk(c) && !Free(c)
    ensures CallerOk(Happen(c, Push))
  {
    var c' := Happen(c, Push);
    forall k | 0 <= k < |c'.completed| ensures Names(c', c'.completed[k]) {
      assert k < |c.completed| ==> Names(c, c.completed[k]);
    }
    forall k | 0 <= k < |c.completed| ensures c.completed[k].handle < |c.gthreads| {
      assert Names(c, c.completed[k]);
    }
  }

  /** In every run the handle of each create that has returned names the process that call forked,
      distinct calls have distinct handles, and no later create or rollback changes an entry. */
  lemma {:induction false} HandlesSurvive(c: Caller, events: seq<Event>)
    requires CallerOk(c)
    ensures var c' := HappenAll(c, events);
            && CallerOk(c') && c.gthreads <= c'.gthreads && c.completed <= c'.completed
            && (forall k :: 0 <= k < |c'.completed| ==> Names(c', c'.completed[k]))
            && (forall j, k :: 0 <= j < k < |c'.completed| ==> c'.completed[j].handle != c'.completed[k].handle)
  {
    if events != [] {
      HandlesSurvive(c, events[..|events| - 1]);
      HappenKeeps(HappenAll(c, events[..|events| - 1]), events[|events| - 1]);
    }
  }

  /** A rollback right after a create does leave a duplicate behind. */
  lemma RollbackDuplicates(c: Caller)
    requires c.returning.Some? && !c.pushed
    ensures HappenAll(c, [Push, Rollback, Push]).gthreads == c.gthreads + [c.returning.value.tid, c.returning.value.tid]
  {
    var x, y := Happen(c, Push), Happen(Happen(c, Push), Rollback);
    assert [Push, Rollback, Push][..2] == [Push, Rollback] && [Push, Rollback][..1] == [Push] && [Push][..0] == [];
    assert HappenAll(c, [Push]) == x;
    assert HappenAll(c, [Push, Rollback]) == y;
  }

  // ---- exactly what is in the table ----

  /** The processes that these creates forked. */
  function Forks(calls: seq<Call>): seq<nat> {
    seq(|calls|, k requires 0 <= k < |calls| => calls[k].tid)
  }

  function Rollbacks(events: seq<Event>): nat {
    if events == [] then 0
    else Rollbacks(events[..|events| - 1]) + (if events[|events| - 1].Rollback? then 1 else 0)
  }

  /** Where the entries of the `k`-th create end. */
  function End(c: Caller, k: nat): nat
    requires k < |c.completed|
  {
    if k + 1 < |c.completed| then c.completed[k + 1].handle else |c.gthreads|
  }

  predicate Fills(c: Caller, k: nat) {
    k < |c.completed| && End(c, k) <= |c.gthreads| &&
    forall m :: c.completed[k].handle <= m < End(c, k) ==> c.gthreads[m] == c.completed[k].tid
  }

  /** The next segment to begin will append the last process again. */
  predicate WillRepeat(c: Caller) {
    c.returning.Some? && c.returning.value in c.completed && !c.pushed
  }

  /** From the handle of each create up to that of the next one there is nothing but its process. */
  predicate Exact(c: Caller) {
    && CallerOk(c)
    && (c.completed == [] <==> c.gthreads == [])
    && (c.completed != [] ==> c.completed[0].handle == 0)
    && (forall k :: 0 <= k < |c.completed| ==> Fills(c, k))
    && (c.returning.Some? && c.returning.value in c.completed ==> c.returning.value == c.completed[|c.completed| - 1])
  }

  lemma PushKeepsExact(c: Caller)
    requires Exact(c) && !Free(c)
    ensures Exact(Happen(c, Push))
  {
    var c' := Happen(c, Push);
    HappenKeeps(c, Push);
    forall k | 0 <= k < |c'.completed| ensures Fills(c', k) {
      if k < |c.completed| {
        assert Fills(c, k) && Names(c, c.completed[k]);
      }
    }
  }

  lemma HappenKeepsExact(c: Caller, e: Event)
    requires Exact(c)
    ensures Exact(Happen(c, e)) && Exact(ChildOf(c))
  {
    HappenKeeps(c, e);
    forall k | 0 <= k < |c.completed| ensures Fills(ChildOf(c), k) && (!e.Push? ==> Fills(Happen(c, e), k)) {
      assert Fills(c, k);
    }
    if e.Push? && !Free(c) {
      PushKeepsExact(c);
    }
    if e.Forked? {
      NewHandle(c);
    }
  }

  /** Handles leave no room below. */
  lemma {:induction false} HandleAtLeast(c: Caller, k: nat)
    requires CallerOk(c) && k < |c.completed|
    ensures k <= c.completed[k].handle < |c.gthreads|
  {
    assert Names(c, c.completed[k]);
    if k > 0 {
      HandleAtLeast(c, k - 1);
    }
  }

  lemma {:induction false} HandleAtMost(c: Caller, k: nat)
    requires CallerOk(c) && k < |c.completed|
    ensures c.completed[k].handle + (|c.completed| - k) <= |c.gthreads|
    decreases |c.completed| - k
  {
    assert Names(c, c.completed[k]);
    if k + 1 < |c.completed| {
      HandleAtMost(c, k + 1);
    }
  }

  /** A table as long as the list of creates is that list, and handles count the creates. */
  lemma CleanTableIsForks(c: Caller)
    requires Exact(c)
    ensures |c.completed| <= |c.gthreads|
    ensures |c.gthreads| == |c.completed| ==>
              c.gthreads == Forks(c.completed) && forall k :: 0 <= k < |c.completed| ==> c.completed[k].handle == k
  {
    if c.completed != [] {
      HandleAtLeast(c, |c.completed| - 1);
    }
    if |c.gthreads| == |c.completed| {
      forall k | 0 <= k < |c.completed| ensures c.completed[k].handle == k && c.gthreads[k] == c.completed[k].tid {
        HandleAtLeast(c, k);
        HandleAtMost(c, k);
        assert Names(c, c.completed[k]);
      }
    }
  }

  /** One more entry than creates at most for each rollback. */
  lemma {:induction false} SurplusBound(events: seq<Event>)
    ensures var c := HappenAll(FRESH, events);
            Exact(c) && |c.gthreads| + (if WillRepeat(c) then 1 else 0) <= |c.completed| + Rollbacks(events)
  {
    if events != [] {
      var before, e := events[..|events| - 1], events[|events| - 1];
      SurplusBound(before);
      HappenKeepsExact(HappenAll(FRESH, before), e);
      SurplusStep(HappenAll(FRESH, before), e);
    }
  }

  lemma SurplusStep(c: Caller, e: Event)
    requires Exact(c)
    ensures var c' := Happen(c, e);
            |c'.gthreads| + (if WillRepeat(c') then 1 else 0) + |c.completed|
            <= |c.gthreads| + (if WillRepeat(c) then 1 else 0) + |c'.completed| + (if e.Rollback? then 1 else 0)
  {
    if e.Forked? {
      NewHandle(c);
    }
  }

  /** What a process that starts with an empty table has in it after any creates, joins and rollbacks:
      the processes it forked, in order, each once and once more for at most each rollback; exactly once,
      so that handles count the creates, when nothing was rolled back. */
  lemma {:induction false} TableIsExact(events: seq<Event>)
    ensures var c := HappenAll(FRESH, events);
            && (forall k :: 0 <= k < |c.completed| ==> Fills(c, k))
            && |c.completed| <= |c.gthreads| <= |c.completed| + Rollbacks(events)
            && (Rollbacks(events) == 0 ==>
                  c.gthreads == Forks(c.completed) && forall k :: 0 <= k < |c.completed| ==> c.completed[k].handle == k)
  {
    SurplusBound(events);
    CleanTableIsForks(HappenAll(FRESH, events));
  }

  // ---- the table itself ----

  const FRESH := Caller([], None, false, None, [])

  class Table {
    var gthreads: seq<nat>
    ghost var caller: Caller

    ghost predicate Valid()
      reads this
    {
      Exact(caller) && caller.gthreads == gthreads
    }

    constructor ()
      ensures Valid() && gthreads == [] && caller == FRESH
    {
      gthreads := [];
      caller := FRESH;
    }

    /** pthread_create, whose segment commits and forks process `tid`: the handle is new and names it. */
    method Create(tid: nat) returns (handle: nat)
      requires Valid() && Free(caller) && caller.reserved.None?
      modifies this
      ensures Valid() && gthreads == old(gthreads) + [tid]
      ensures caller == Happen(Happen(Happen(old(caller), Reserve), Forked(tid)), Push)
      ensures handle == |old(gthreads)| && caller.completed == old(caller.completed) + [Call(handle, tid)]
    {
      handle := |gthreads|;
      HappenKeepsExact(caller, Reserve);
      caller := Happen(caller, Reserve);
      HappenKeepsExact(caller, Forked(tid));
      caller := Happen(caller, Forked(tid));
      NewHandle(caller);
      gthreads := gthreads + [tid];
      HappenKeepsExact(caller, Push);
      caller := Happen(caller, Push);
    }

    /** The segment that began inside a create starts over and appends the same process again. */
    method Repeat(tid: nat)
      requires Valid() && caller.returning.Some? && caller.pushed && tid == caller.returning.value.tid
      modifies this
      ensures Valid() && gthreads == old(gthreads) + [tid]
      ensures caller == Happen(Happen(old(caller), Rollback), Push) && caller.completed == old(caller.completed)
    {
      HappenKeepsExact(caller, Rollback);
      caller := Happen(caller, Rollback);
      gthreads := gthreads + [tid];
      HappenKeepsExact(caller, Push);
      caller := Happen(caller, Push);
    }

    /** pthread_join of the handle of the `k`-th create waits for the process that create forked. */
    method Join(handle: nat, ghost k: nat) returns (tid: nat)
      requires Valid() && Free(caller) && caller.reserved.None?
      requires k < |caller.completed| && caller.completed[k].handle == handle
      modifies this`caller
      ensures Valid() && tid == old(caller.completed[k].tid) && caller == Happen(old(caller), Joined)
      ensures Free(caller) && !WillRepeat(caller) && caller.completed == old(caller.completed)
    {
      assert Names(caller, caller.completed[k]);
      tid := gthreads[handle];
      HappenKeepsExact(caller, Joined);
      caller := Happen(caller, Joined);
    }
  }

  /** The handle reserved for a create is none of the earlier ones. */
  lemma NewHandle(c: Caller)
    requires CallerOk(c)
    ensures forall call :: call in c.completed ==> call.handle < |c.gthreads|
  {
    forall call | call in c.completed ensures call.handle < |c.gthreads| {
      var k :| 0 <= k < |c.completed| && c.completed[k] == call;
      assert Names(c, c.completed[k]);
    }
  }
}
