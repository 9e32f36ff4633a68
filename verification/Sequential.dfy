/** The program with every pthread_create turned into a call: one stack of frames, one heap. */
module Sequential {
  import opened Memory
  import opened Segments

  /** A thread body in progress, and the size of its handle table. */
  datatype Frame = Frame(ctx: Context, handles: nat)

  /** The running body is on top, at index 0. */
  datatype Calls = Calls(heap: Heap, stack: seq<Frame>)

  /** A synchronisation point of the elided program: create calls, join does nothing, exit returns. */
  function PastSync(P: Program, f: Frame): seq<Frame> {
    match P.next(f.ctx)
    case Create(c) => [Frame(c, f.handles), Frame(P.after(f.ctx, f.handles), f.handles + 1)]
    case Join(_) => [Frame(P.after(f.ctx, 0), f.handles)]
    case Exit => []
    case _ => [f]
  }

  function CallStep(P: Program, q: Calls): Calls {
    if q.stack == [] then q
    else
      var f := q.stack[0];
      if AtSync(P, f.ctx) then Calls(q.heap, PastSync(P, f) + q.stack[1..])
      else
        var m := Direct(P, Machine(f.ctx, q.heap, {}));
        Calls(m.heap, [f.(ctx := m.ctx)] + q.stack[1..])
  }

  function CallRun(P: Program, q: Calls, n: nat): Calls
    decreases n
  {
    if n == 0 then q else CallRun(P, CallStep(P, q), n - 1)
  }

  /** The calls return, leaving heap `final`. */
  ghost predicate Returns(P: Program, h: Heap, stack: seq<Frame>, final: Heap) {
    exists n: nat :: CallRun(P, Calls(h, stack), n) == Calls(final, [])
  }

  lemma {:induction false} RunStaysReturned(P: Program, h: Heap, n: nat)
    ensures CallRun(P, Calls(h, []), n) == Calls(h, [])
  {
    if n > 0 {
      RunStaysReturned(P, h, n - 1);
    }
  }

  lemma {:induction false} SameReturn(P: Program, q: Calls, n: nat, m: nat)
    requires CallRun(P, q, n).stack == [] && CallRun(P, q, m).stack == []
    ensures CallRun(P, q, n) == CallRun(P, q, m)
    decreases n
  {
    if q.stack == [] {
      RunStaysReturned(P, q.heap, n);
      RunStaysReturned(P, q.heap, m);
    } else if n > 0 && m > 0 {
      SameReturn(P, CallStep(P, q), n - 1, m - 1);
    }
  }

  /** The sequential program has at most one result. */
  lemma ReturnsOnce(P: Program, h: Heap, stack: seq<Frame>, x: Heap, y: Heap)
    requires Returns(P, h, stack, x) && Returns(P, h, stack, y)
    ensures x == y
  {
    var n: nat :| CallRun(P, Calls(h, stack), n) == Calls(x, []);
    var m: nat :| CallRun(P, Calls(h, stack), m) == Calls(y, []);
    SameReturn(P, Calls(h, stack), n, m);
  }

  lemma StepBack(P: Program, q: Calls, final: Heap)
    requires Returns(P, CallStep(P, q).heap, CallStep(P, q).stack, final)
    ensures Returns(P, q.heap, q.stack, final)
  {
    var n: nat :| CallRun(P, Calls(CallStep(P, q).heap, CallStep(P, q).stack), n) == Calls(final, []);
    assert CallRun(P, q, n + 1) == Calls(final, []);
  }

  // ---- the upper part of a stack runs without looking at the lower part ----

  lemma StepAbove(P: Program, h: Heap, above: seq<Frame>, below: seq<Frame>)
    requires above != []
    ensures var q := CallStep(P, Calls(h, above));
            CallStep(P, Calls(h, above + below)) == Calls(q.heap, q.stack + below)
  {
    assert (above + below)[0] == above[0] && (above + below)[1..] == above[1..] + below;
    var f := above[0];
    if AtSync(P, f.ctx) {
      assert PastSync(P, f) + (above[1..] + below) == (PastSync(P, f) + above[1..]) + below;
    } else {
      var g := f.(ctx := Direct(P, Machine(f.ctx, h, {})).ctx);
      assert [g] + (above[1..] + below) == ([g] + above[1..]) + below;
    }
  }

  lemma {:induction false} Split(P: Program, h: Heap, above: seq<Frame>, below: seq<Frame>, final: Heap, n: nat)
      returns (mid: Heap)
    requires CallRun(P, Calls(h, above + below), n) == Calls(final, [])
    ensures Returns(P, h, above, mid) && Returns(P, mid, below, final)
    decreases n
  {
    if above == [] {
      mid := h;
      assert above + below == below;
      assert CallRun(P, Calls(h, above), 0) == Calls(h, []);
    } else {
      var q := CallStep(P, Calls(h, above));
      StepAbove(P, h, above, below);
      mid := Split(P, q.heap, q.stack, below, final, n - 1);
      StepBack(P, Calls(h, above), mid);
    }
  }

  lemma {:induction false} Paste(
      P: Program, h: Heap, above: seq<Frame>, below: seq<Frame>, mid: Heap, final: Heap, n: nat)
    requires CallRun(P, Calls(h, above), n) == Calls(mid, []) && Returns(P, mid, below, final)
    ensures Returns(P, h, above + below, final)
    decreases n
  {
    if above == [] {
      RunStaysReturned(P, h, n);
      assert above + below == below;
    } else {
      var q := CallStep(P, Calls(h, above));
      Paste(P, q.heap, q.stack, below, mid, final, n - 1);
      StepAbove(P, h, above, below);
      StepBack(P, Calls(h, above + below), final);
    }
  }

  /** A frame waiting in the middle of the stack may pass a synchronisation point early. */
  lemma SyncEarly(P: Program, h: Heap, above: seq<Frame>, f: Frame, below: seq<Frame>, final: Heap)
    requires AtSync(P, f.ctx) && Returns(P, h, above + (PastSync(P, f) + below), final)
    ensures Returns(P, h, above + ([f] + below), final)
  {
    var n: nat :| CallRun(P, Calls(h, above + (PastSync(P, f) + below)), n) == Calls(final, []);
    var mid := Split(P, h, above, PastSync(P, f) + below, final, n);
    assert ([f] + below)[1..] == below;
    StepBack(P, Calls(mid, [f] + below), final);
    var m: nat :| CallRun(P, Calls(h, above), m) == Calls(mid, []);
    Paste(P, h, above, [f] + below, mid, final, m);
  }

  /** The frame on top may run its segment at once. */
  lemma {:induction false} SegmentOnTop(P: Program, h: Heap, f: Frame, below: seq<Frame>, n: nat, final: Heap)
    requires var m := DirectRun(P, f.ctx, h, n);
             Returns(P, m.heap, [f.(ctx := m.ctx)] + below, final)
    ensures Returns(P, h, [f] + below, final)
  {
    if n > 0 {
      var m := DirectRun(P, f.ctx, h, n - 1);
      var g := f.(ctx := m.ctx);
      if !AtSync(P, m.ctx) {
        assert ([g] + below)[1..] == below;
        StepBack(P, Calls(m.heap, [g] + below), final);
      }
      SegmentOnTop(P, h, f, below, n - 1, final);
    }
  }
}
