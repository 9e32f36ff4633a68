/** What the runtime promises: threads whose segments run one at a time, directly on the heap. */
module Serial {
  import opened Memory
  import opened Segments
  import opened Protocol

  datatype Stage = Ready | Done | Gone

  /** `waited` is history: since it started or last forked, this thread has run a segment that
      touched the heap, or joined its predecessor. */
  datatype Thread = Thread(
    parent: nat, predecessor: nat, handles: seq<nat>, ctx: Context, stage: Stage, waited: bool)

  /** `log` and `order` are history: the segments in the order they ran, and the threads in the
      order a program that called its threads instead of forking them would finish them. */
  datatype World = World(heap: Heap, threads: seq<Thread>, log: seq<Commit>, order: seq<nat>)

  datatype Move =
    | Segment(accesses: nat)  // run to the next synchronisation point, all at once
    | Spawn
    | Joined
    | Finish

  datatype Turn = Turn(pid: nat, move: Move)

  predicate HasFinished(w: World, i: nat) {
    i < |w.threads| && w.threads[i].stage.Gone?
  }

  predicate Possible(P: Program, w: World, u: Turn) {
    u.pid < |w.threads| &&
    var d := w.threads[u.pid];
    match u.move
    case Segment(n) =>
      d.stage.Ready? && AtSync(P, DirectRun(P, d.ctx, w.heap, n).ctx) &&
      (AtSync(P, d.ctx) || d.predecessor == 0 || HasFinished(w, d.predecessor))
    case Spawn => d.stage.Done? && P.next(d.ctx).Create?
    case Joined =>
      d.stage.Done? && P.next(d.ctx).Join? && P.next(d.ctx).handle < |d.handles| &&
      (d.handles[P.next(d.ctx).handle] == 0 || HasFinished(w, d.handles[P.next(d.ctx).handle]))
    case Finish => d.stage.Done? && P.next(d.ctx).Exit?
  }

  function InsertBefore(order: seq<nat>, i: nat, child: nat): seq<nat> {
    if order == [] then [child]
    else if order[0] == i then [child] + order
    else [order[0]] + InsertBefore(order[1..], i, child)
  }

  function Spawned(P: Program, b: Build, w: World, i: nat): World
    requires i < |w.threads| && P.next(w.threads[i].ctx).Create?
  {
    var d := w.threads[i];
    var pid := |w.threads|;
    var parent := d.(ctx := P.after(d.ctx, |d.handles|), stage := Ready, predecessor := pid,
                     handles := d.handles + [pid], waited := false);
    var child := Thread(i, if b.Ordered? then d.predecessor else 0, d.handles, P.next(d.ctx).child, Ready, false);
    w.(threads := w.threads[i := parent] + [child], order := InsertBefore(w.order, i, pid))
  }

  function Play(P: Program, b: Build, w: World, u: Turn): World
    requires Possible(P, w, u)
  {
    var i := u.pid;
    var d := w.threads[i];
    match u.move
    case Segment(n) =>
      var m := DirectRun(P, d.ctx, w.heap, n);
      w.(heap := m.heap, log := w.log + [Commit(i, m.wrote)],
         threads := w.threads[i := d.(ctx := m.ctx, stage := Done, waited := d.waited || !AtSync(P, d.ctx))])
    case Spawn => Spawned(P, b, w, i)
    case Joined =>
      var target := d.handles[P.next(d.ctx).handle];
      w.(threads := w.threads[i := d.(ctx := P.after(d.ctx, 0), stage := Ready,
                                      waited := d.waited || target == d.predecessor)])
    case Finish => w.(threads := w.threads[i := d.(stage := Gone)])
  }

  /** Impossible turns change nothing. */
  function Take(P: Program, b: Build, w: World, u: Turn): World {
    if Possible(P, w, u) then Play(P, b, w, u) else w
  }

  function PlayAll(P: Program, b: Build, w: World, turns: seq<Turn>): World {
    if turns == [] then w else Take(P, b, PlayAll(P, b, w, turns[..|turns| - 1]), turns[|turns| - 1])
  }

  /** Every turn is possible when it is taken. */
  predicate Feasible(P: Program, b: Build, w: World, turns: seq<Turn>) {
    turns == [] ||
    (Feasible(P, b, w, turns[..|turns| - 1]) &&
     Possible(P, PlayAll(P, b, w, turns[..|turns| - 1]), turns[|turns| - 1]))
  }

  lemma PlayOneMore(P: Program, b: Build, w: World, turns: seq<Turn>, more: seq<Turn>)
    requires |more| <= 1 && Feasible(P, b, w, turns)
    requires more != [] ==> Possible(P, PlayAll(P, b, w, turns), more[0])
    ensures Feasible(P, b, w, turns + more)
    ensures var v := PlayAll(P, b, w, turns);
            PlayAll(P, b, w, turns + more) == if more == [] then v else Play(P, b, v, more[0])
  {
    if more == [] {
      assert turns + more == turns;
    } else {
      assert (turns + more)[..|turns + more| - 1] == turns;
    }
  }

  function Origin(c: Context, h: Heap): World {
    World(h, [Thread(0, 0, [], c, Ready, false)], [], [0])
  }
}
