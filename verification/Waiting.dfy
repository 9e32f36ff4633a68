/** WaitExited over the process table of the kernel, and the steps of the protocol it makes. */
module Waiting {
  import opened Segments
  import opened Protocol
  import opened Reaping

  /** What waitpid does for a caller: collects the child, finds no such child, or blocks. */
  datatype Waited = Collected | NoChild | Blocked

  class Kernel {
    var parents: seq<nat>
    var exited: set<nat>
    var reaped: set<nat>

    /** Collected by its parent, or by init when the parent is gone too. */
    predicate Forgotten(t: nat)
      reads this
      requires t < |parents|
    {
      t in exited && (t in reaped || parents[t] in exited)
    }

    method WaitPid(caller: nat, t: nat) returns (r: Waited)
      requires t < |parents|
      modifies this`reaped
      ensures r.NoChild? <==> parents[t] != caller || (t in exited && t in old(reaped))
      ensures r.Collected? ==> t in exited
      ensures r.Blocked? ==> t !in exited
      ensures reaped == if r.Collected? then old(reaped) + {t} else old(reaped)
    {
      if parents[t] != caller || (t in exited && t in reaped) {
        return NoChild;
      }
      if t !in exited {
        return Blocked;
      }
      reaped := reaped + {t};
      return Collected;
    }

    /** kill(t, 0): zombies are still found. */
    method Kill(t: nat) returns (found: bool)
      requires t < |parents|
      ensures found <==> !Forgotten(t)
    {
      found := !(t in exited && (t in reaped || parents[t] in exited));
    }

    /** A caller need not wait for `t`: there is nobody to wait for, or its own child has exited, or
        nobody can find the process any more. */
    predicate Over(caller: nat, t: nat)
      reads this
      requires t < |parents|
    {
      t == 0 || (t in exited && (parents[t] == caller || t in reaped || parents[t] in exited))
    }

    /** The wait, once over, reaps an own child. */
    function ReapedBy(caller: nat, t: nat): set<nat>
      reads this
      requires t < |parents|
    {
      if Over(caller, t) && 0 < t && parents[t] == caller then reaped + {t} else reaped
    }

    /** One round of the wait: true when WaitExited returns, false while it blocks or loops. */
    method WaitExited(caller: nat, predecessor: nat) returns (over: bool)
      requires predecessor < |parents|
      modifies this`reaped
      ensures over <==> old(Over(caller, predecessor))
      ensures reaped == old(ReapedBy(caller, predecessor))
    {
      if predecessor == 0 {
        return true;
      }
      var r := WaitPid(caller, predecessor);
      if r.NoChild? {
        var found := Kill(predecessor);
        over := !found;
      } else {
        over := r.Collected?;
      }
    }
  }

  /** The process table of `s`. */
  ghost predicate TableShown(k: Kernel, s: State)
    reads k
  {
    && |k.parents| == |s.procs| && (forall i :: 0 <= i < |s.procs| ==> k.parents[i] == s.procs[i].parent)
    && (forall t: nat :: t in k.exited <==> t < |s.procs| && s.procs[t].phase.Exited?)
    && k.reaped == s.reaped
  }

  /** The wait in a commit returns exactly when its step is enabled, and makes that step. */
  method AwaitPredecessor(k: Kernel, predecessor: nat, i: nat, ghost P: Program, ghost b: Build, ghost s: State)
      returns (over: bool)
    requires TableShown(k, s) && WaitersOk(P, s)
    requires i < |s.procs| && s.procs[i].phase.AwaitingPredecessor? && predecessor == s.procs[i].predecessor
    modifies k
    ensures over <==> Enabled(P, s, Event(i, PredecessorGone))
    ensures TableShown(k, if over then Apply(P, b, s, Event(i, PredecessorGone)) else s)
  {
    assert KnowsPids(s.procs[i], |s.procs|);
    over := k.WaitExited(i, predecessor);
    StillRunning(P, b, s, Event(i, PredecessorGone));
  }

  /** So does the wait in a join. */
  method AwaitThread(k: Kernel, tid: nat, i: nat, ghost P: Program, ghost b: Build, ghost s: State) returns (over: bool)
    requires TableShown(k, s) && WaitersOk(P, s)
    requires i < |s.procs| && s.procs[i].phase.Synced? && Next(P, s.procs[i]).Join?
    requires Next(P, s.procs[i]).handle < |s.procs[i].handles| && tid == s.procs[i].handles[Next(P, s.procs[i]).handle]
    modifies k
    ensures over <==> Enabled(P, s, Event(i, JoinDone))
    ensures TableShown(k, if over then Apply(P, b, s, Event(i, JoinDone)) else s)
  {
    assert KnowsPids(s.procs[i], |s.procs|) && tid in s.procs[i].handles;
    over := k.WaitExited(i, tid);
    StillRunning(P, b, s, Event(i, JoinDone));
  }

  /** Returning from a wait changes neither the parents nor who has exited. */
  lemma StillRunning(P: Program, b: Build, s: State, e: Event)
    requires e.action.PredecessorGone? || e.action.JoinDone?
    ensures Enabled(P, s, e) ==>
              var s' := Apply(P, b, s, e);
              |s'.procs| == |s.procs| &&
              forall j :: 0 <= j < |s.procs| ==>
                s'.procs[j].parent == s.procs[j].parent && (s'.procs[j].phase.Exited? <==> s.procs[j].phase.Exited?)
  {
  }
}
