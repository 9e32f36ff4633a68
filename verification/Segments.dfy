/** User code between two synchronisation points, run in two ways: directly on one heap,
    and as an attempt that copies a page privately before its first write. */
module Segments {
  import opened Memory

  /** The saved machine state of a thread: which code it runs and where, a register, its stack. */
  datatype Context = Context(code: nat, pc: nat, register: int, stack: seq<int>)

  /** What the code at a context does next. The addresses a program uses lie inside the heap. */
  datatype Op =
    | Load(a: Address)
    | Store(a: Address, v: int)
    | Create(child: Context)
    | Join(handle: nat)
    | Exit

  /** Deterministic code: `after` resumes a context with the value its operation returned. */
  datatype Program = Program(next: Context -> Op, after: (Context, int) -> Context)

  predicate IsAccess(op: Op) {
    op.Load? || op.Store?
  }

  predicate AtSync(P: Program, c: Context) {
    !IsAccess(P.next(c))
  }

  // ---- direct execution ----

  datatype Machine = Machine(ctx: Context, heap: Heap, wrote: set<Page>)

  function Direct(P: Program, m: Machine): Machine {
    match P.next(m.ctx)
    case Load(a) => m.(ctx := P.after(m.ctx, Read(m.heap, a)))
    case Store(a, v) => Machine(P.after(m.ctx, 0), Write(m.heap, a, v), m.wrote + {a.page})
    case _ => m
  }

  /** The first `n` accesses from `c`, made directly on `h`; a synchronisation point stops it. */
  function DirectRun(P: Program, c: Context, h: Heap, n: nat): Machine {
    if n == 0 then Machine(c, h, {}) else Direct(P, DirectRun(P, c, h, n - 1))
  }

  // ---- an attempt with copy-on-write ----

  datatype Attempt = Attempt(ctx: Context, copies: Copies, touched: set<Page>)

  function Start(c: Context): Attempt {
    Attempt(c, map[], {})
  }

  /** One load or store by an attempt while the backing heap is `h`. */
  function Access(P: Program, h: Heap, t: Attempt): Attempt {
    match P.next(t.ctx)
    case Load(a) =>
      Attempt(P.after(t.ctx, ViewPage(h, t.copies, a.page)[a.offset]), t.copies, t.touched + {a.page})
    case Store(a, v) =>
      Attempt(P.after(t.ctx, 0), t.copies[a.page := ViewPage(h, t.copies, a.page)[a.offset := v]], t.touched + {a.page})
    case _ => t
  }

  /** An attempt of `n` accesses over a heap that never changes under it. */
  function Undisturbed(P: Program, c: Context, h: Heap, n: nat): Attempt {
    if n == 0 then Start(c) else Access(P, h, Undisturbed(P, c, h, n - 1))
  }

  /** The attempt is where direct execution is, and shows the heap direct execution has written. */
  predicate Mirrors(h: Heap, t: Attempt, m: Machine) {
    m == Machine(t.ctx, Overlay(h, t.copies), t.copies.Keys) && t.copies.Keys <= t.touched
  }

  lemma AccessMirrors(P: Program, h: Heap, t: Attempt, m: Machine)
    requires Mirrors(h, t, m)
    ensures Mirrors(h, Access(P, h, t), Direct(P, m))
  {
    match P.next(t.ctx) {
      case Load(a) =>
      case Store(a, v) =>
        var u := Access(P, h, t);
        assert Overlay(h, u.copies) == Write(Overlay(h, t.copies), a, v);
      case _ =>
    }
  }

  /** Copy-on-write changes nothing a program can see: an undisturbed attempt reaches the context
      that direct execution reaches, its view is the directly written heap, and its copies are
      exactly the pages written. */
  lemma {:induction false} UndisturbedIsDirect(P: Program, c: Context, h: Heap, n: nat)
    ensures var t := Undisturbed(P, c, h, n);
            DirectRun(P, c, h, n) == Machine(t.ctx, Overlay(h, t.copies), t.copies.Keys)
            && t.copies.Keys <= t.touched
  {
    if n == 0 {
      assert Overlay(h, map[]) == h;
    } else {
      UndisturbedIsDirect(P, c, h, n - 1);
      AccessMirrors(P, h, Undisturbed(P, c, h, n - 1), DirectRun(P, c, h, n - 1));
    }
  }

  /** An attempt depends only on the pages it touches. */
  lemma {:induction false} OnlyTouchedPagesMatter(P: Program, c: Context, h: Heap, h': Heap, n: nat)
    requires forall p :: p in Undisturbed(P, c, h, n).touched ==> h[p] == h'[p]
    ensures Undisturbed(P, c, h', n) == Undisturbed(P, c, h, n)
  {
    if n != 0 {
      var t := Undisturbed(P, c, h, n - 1);
      assert t.touched <= Access(P, h, t).touched;
      OnlyTouchedPagesMatter(P, c, h, h', n - 1);
    }
  }

  /** Running past a synchronisation point changes nothing. */
  lemma {:induction false} StopsAtSync(P: Program, c: Context, h: Heap, n: nat, m: nat)
    requires n <= m && AtSync(P, DirectRun(P, c, h, n).ctx)
    ensures DirectRun(P, c, h, m) == DirectRun(P, c, h, n)
  {
    if n < m {
      StopsAtSync(P, c, h, n, m - 1);
    }
  }

  /** A segment has one outcome: any two runs from the same start that reach a synchronisation
      point agree. */
  lemma SegmentIsDeterministic(P: Program, c: Context, h: Heap, n: nat, m: nat)
    requires AtSync(P, DirectRun(P, c, h, n).ctx) && AtSync(P, DirectRun(P, c, h, m).ctx)
    ensures DirectRun(P, c, h, n) == DirectRun(P, c, h, m)
  {
    if n <= m {
      StopsAtSync(P, c, h, n, m);
    } else {
      StopsAtSync(P, c, h, m, n);
    }
  }
}
