/**
 * What the two backward drivers compute, on values. Both walk the steps from
 * the last one down to step 0; step i launches the gradient kernel the
 * activation code selects on h's row i, v's row i, grad_out's row i + 1 and the
 * running state gradient dh, which writes dwx's row i and dh; then a GEMM adds
 * u_t times the step's gate gradients to dh. The plain cell feeds the GEMM dwx's
 * row itself; the normalised cell first passes it through the layer norm's
 * backward sub-kernel into tmp_dwx's row i and feeds that. After the loop a
 * second GEMM accumulates the gate gradients of all steps times h into du.
 *
 * Dh and Dwx are the reference recurrence; Step is one loop iteration on the
 * buffers' contents, and Progress, kept by every Step, ties the buffers after
 * steps T-1..i to Dh(i) and Dwx(t). Dispatch, DhGemmInto and DuGemmInto are the
 * in-place pieces both drivers' IterateInternal and Run are built from.
 */
module BackwardRecurrence {
  import opened Layout
  import opened Slices
  import opened Primitives
  import opened Blas
  import opened GradientKernel

  /** The plain cell's backward pass, or the normalised cell's with its layer norm's backward sub-kernel. */
  datatype Pass = Plain | Normalised(lnBackward: NormFn)

  /** The kernel's arithmetic in each pass. */
  function GroupingOf(pass: Pass): Grouping
  {
    match pass
    case Plain => PlainCell
    case Normalised(_) => NormalisedCell
  }

  /**
   * What the dh GEMM of step `step` reads: dwx's row itself in the plain pass,
   * `layer_norm1.RunPartial(stream1, batch_size, dwx, tmp_dwx)`'s output in the
   * normalised pass.
   */
  function Fed(pass: Pass, step: nat, dwxs: seq<real>): (r: seq<real>)
    ensures |r| == |dwxs|
  {
    match pass
    case Plain => dwxs
    case Normalised(ln) => ln(step, dwxs)
  }

  /** dwx's row after the launch: the selected kernel's DwxRow, or the row as it was when no kernel runs. */
  function KernelDwx(grouping: Grouping, p: Pointwise, code: int, N: nat, H: nat,
                     hs: seq<real>, vs: seq<real>, dhs: seq<real>, gs: seq<real>, dwxs: seq<real>): (r: seq<real>)
    requires StepInputs(N, H, hs, vs, dhs, gs) && |dwxs| == Size(2, N, H)
    ensures |r| == Size(2, N, H)
  {
    match BackwardKernelFor(code)
    case None => dwxs
    case Some(act) => DwxRow(grouping, p, act, N, H, hs, vs, dhs, gs)
  }

  /** dh after the launch: the selected kernel's DhRow, or dh as it was when no kernel runs. */
  function KernelDh(grouping: Grouping, p: Pointwise, code: int, N: nat, H: nat,
                    hs: seq<real>, vs: seq<real>, dhs: seq<real>, gs: seq<real>): (r: seq<real>)
    requires StepInputs(N, H, hs, vs, dhs, gs)
    ensures |r| == Size(1, N, H)
  {
    match BackwardKernelFor(code)
    case None => dhs
    case Some(act) => DhRow(grouping, p, act, N, H, hs, vs, dhs, gs)
  }

  /**
   * `gemm(OP_N, OP_N, H, N, 2H, 1, u_t, H, g, 2H, 1, dh, H)`: dh plus the H x 2H
   * matrix u_t times the 2H x N gate gradients g. With H == 0 there is nothing to
   * compute.
   */
  function DhGemm(N: nat, H: nat, u: seq<real>, g: seq<real>, dh: seq<real>): (r: seq<real>)
    requires Mul(H * 2, H) <= |u| && |g| == Size(2, N, H) && |dh| == Size(1, N, H)
    ensures |r| == |dh|
  {
    Widths(H);
    if H == 0 then dh
    else Gemm(H, N, H * 2, 1.0, Matrix(u, H, OpN), Matrix(g, H * 2, OpN), 1.0, dh, H)
  }

  /**
   * The dh GEMM accumulates: thread (col, row)'s cell of dh gains the dot product
   * of row `row` of u_t with batch element col's 2H gate gradients.
   */
  lemma {:induction false} DhGemmAt(N: nat, H: nat, u: seq<real>, g: seq<real>, dh: seq<real>, col: nat, row: nat)
    requires Mul(H * 2, H) <= |u| && |g| == Size(2, N, H) && |dh| == Size(1, N, H) && col < N && row < H
    ensures Holds(Matrix(u, H, OpN), H, H * 2) && Holds(Matrix(g, H * 2, OpN), H * 2, N)
    ensures Index(1, H, Thread(col, row), 0) < |dh|
    ensures DhGemm(N, H, u, g, dh)[Index(1, H, Thread(col, row), 0)]
            == dh[Index(1, H, Thread(col, row), 0)] + Dot(Matrix(u, H, OpN), Matrix(g, H * 2, OpN), H, N, H * 2, row, col, H * 2)
  {
    Widths(H);
    IndexBound(1, N, H, col, row, 0);
    var A, B := Matrix(u, H, OpN), Matrix(g, H * 2, OpN);
    assert Index(1, H, Thread(col, row), 0) == row + Mul(col, H);
    GemmAt(H, N, H * 2, 1.0, A, B, 1.0, dh, H, row, col);
  }

  /**
   * `gemm(OP_N, OP_T, 2H, H, N*T, 1, g, 2H, h, H, 1, du, 2H)`: du plus the
   * 2H x NT gate gradients of all steps times the transpose of the H x NT states.
   */
  function DuGemm(N: nat, H: nat, T: nat, g: seq<real>, hs: seq<real>, du: seq<real>): (r: seq<real>)
    requires Mul(Mul(N, T), H * 2) <= |g| && Mul(Mul(N, T), H) <= |hs| && |du| == Mul(H, H * 2)
    ensures |r| == |du|
  {
    if H == 0 then du
    else Gemm(H * 2, H, Mul(N, T), 1.0, Matrix(g, H * 2, OpN), Matrix(hs, H, OpT), 1.0, du, H * 2)
  }

  /**
   * The du GEMM accumulates: entry (i, j) of du gains the sum over every batch
   * element of every step q of g[i + q*2H] * h[j + q*H].
   */
  lemma {:induction false} DuGemmAt(N: nat, H: nat, T: nat, g: seq<real>, hs: seq<real>, du: seq<real>, i: nat, j: nat)
    requires Mul(Mul(N, T), H * 2) <= |g| && Mul(Mul(N, T), H) <= |hs| && |du| == Mul(H, H * 2) && i < H * 2 && j < H
    ensures Holds(Matrix(g, H * 2, OpN), H * 2, Mul(N, T)) && Holds(Matrix(hs, H, OpT), Mul(N, T), H)
    ensures i + Mul(j, H * 2) < |du|
    ensures DuGemm(N, H, T, g, hs, du)[i + Mul(j, H * 2)]
            == du[i + Mul(j, H * 2)] + Dot(Matrix(g, H * 2, OpN), Matrix(hs, H, OpT), H * 2, H, Mul(N, T), i, j, Mul(N, T))
  {
    GemmAt(H * 2, H, Mul(N, T), 1.0, Matrix(g, H * 2, OpN), Matrix(hs, H, OpT), 1.0, du, H * 2, i, j);
  }

  /** Element q of the du GEMM's sum: gate gradient row i of column q times state j of column q. */
  lemma {:induction false} DuTerms(N: nat, H: nat, T: nat, g: seq<real>, hs: seq<real>, i: nat, j: nat, q: nat)
    requires Mul(Mul(N, T), H * 2) <= |g| && Mul(Mul(N, T), H) <= |hs| && i < H * 2 && j < H && q < Mul(N, T)
    ensures Holds(Matrix(g, H * 2, OpN), H * 2, Mul(N, T)) && Holds(Matrix(hs, H, OpT), Mul(N, T), H)
    ensures i + Mul(q, H * 2) < |g| && j + Mul(q, H) < |hs|
    ensures Elem(Matrix(g, H * 2, OpN), H * 2, Mul(N, T), i, q) == g[i + Mul(q, H * 2)]
    ensures Elem(Matrix(hs, H, OpT), Mul(N, T), H, q, j) == hs[j + Mul(q, H)]
  {
    BlockBound(H * 2, Mul(N, T), q, i);
    BlockBound(H, Mul(N, T), q, j);
  }

  /**
   * One IterateInternal call on the values it reads (u_t, the step's rows of h and
   * v, grad_out's row, the old dh and the old dwx row): the new dh, that is the
   * kernel's dh plus u_t times what the pass feeds the GEMM.
   */
  function StepDh(pass: Pass, p: Pointwise, code: int, N: nat, H: nat, step: nat, u: seq<real>,
                  hs: seq<real>, vs: seq<real>, dhs: seq<real>, gs: seq<real>, dwxs: seq<real>): (r: seq<real>)
    requires Mul(H * 2, H) <= |u| && StepInputs(N, H, hs, vs, dhs, gs) && |dwxs| == Size(2, N, H)
    ensures |r| == Size(1, N, H)
  {
    var grouping := GroupingOf(pass);
    DhGemm(N, H, u, Fed(pass, step, KernelDwx(grouping, p, code, N, H, hs, vs, dhs, gs, dwxs)),
           KernelDh(grouping, p, code, N, H, hs, vs, dhs, gs))
  }

  /** What a whole backward run is computed from; dh0 and dwx0 are the two buffers' contents before it. */
  datatype RunInputs = RunInputs(pass: Pass, p: Pointwise, code: int, N: nat, H: nat, T: nat,
                                 u: seq<real>, h: seq<real>, v: seq<real>, gradOut: seq<real>,
                                 dh0: seq<real>, dwx0: seq<real>)

  /** u_t holds H x 2H weights, h and v T steps, grad_out T + 1 steps, dh one step and dwx T steps. */
  predicate WellSized(r: RunInputs)
  {
    Mul(r.H * 2, r.H) <= |r.u| && Mul(r.T, Size(1, r.N, r.H)) <= |r.h| && Mul(r.T, Size(3, r.N, r.H)) <= |r.v| &&
    Mul(r.T + 1, Size(1, r.N, r.H)) <= |r.gradOut| && Size(1, r.N, r.H) <= |r.dh0| && Mul(r.T, Size(2, r.N, r.H)) <= |r.dwx0|
  }

  /** Step i's rows of h, v, grad_out (row i + 1) and dwx lie inside the run's buffers. */
  lemma {:induction false} StepRows(r: RunInputs, i: nat)
    requires WellSized(r) && i < r.T
    ensures Mul(i, Size(1, r.N, r.H)) + Size(1, r.N, r.H) <= |r.h| && Mul(i, Size(3, r.N, r.H)) + Size(3, r.N, r.H) <= |r.v|
    ensures Mul(i + 1, Size(1, r.N, r.H)) + Size(1, r.N, r.H) <= |r.gradOut|
    ensures Mul(i, Size(2, r.N, r.H)) + Size(2, r.N, r.H) <= |r.dwx0|
  {
    RowInBounds(r.T, i, Size(1, r.N, r.H));
    RowInBounds(r.T, i, Size(2, r.N, r.H));
    RowInBounds(r.T, i, Size(3, r.N, r.H));
    RowInBounds(r.T + 1, i + 1, Size(1, r.N, r.H));
  }

  /**
   * The reference recurrence, from the last step down: Dh(T) is dh's initial
   * contents, Dh(i) is step i applied to Dh(i + 1), dwx's initial row i, and the
   * rows of h, v and grad_out step i reads.
   */
  function Dh(r: RunInputs, i: nat): (s: seq<real>)
    requires WellSized(r) && i <= r.T
    ensures |s| == Size(1, r.N, r.H)
    decreases r.T - i
  {
    var W1, W2, W3 := Size(1, r.N, r.H), Size(2, r.N, r.H), Size(3, r.N, r.H);
    if i == r.T then r.dh0[..W1]
    else
      StepRows(r, i);
      StepDh(r.pass, r.p, r.code, r.N, r.H, i, r.u, Row(r.h, i, W1), Row(r.v, i, W3), Dh(r, i + 1),
             Row(r.gradOut, i + 1, W1), Row(r.dwx0, i, W2))
  }

  /** dwx's row i once step i has run: the kernel's gate gradients from Dh(i + 1). */
  function Dwx(r: RunInputs, i: nat): (s: seq<real>)
    requires WellSized(r) && i < r.T
    ensures |s| == Size(2, r.N, r.H)
  {
    var W1, W2, W3 := Size(1, r.N, r.H), Size(2, r.N, r.H), Size(3, r.N, r.H);
    StepRows(r, i);
    KernelDwx(GroupingOf(r.pass), r.p, r.code, r.N, r.H, Row(r.h, i, W1), Row(r.v, i, W3), Dh(r, i + 1),
              Row(r.gradOut, i + 1, W1), Row(r.dwx0, i, W2))
  }

  /** What step i feeds its dh GEMM (tmp_dwx's row i in the normalised pass). */
  function FedRow(r: RunInputs, i: nat): (s: seq<real>)
    requires WellSized(r) && i < r.T
    ensures |s| == Size(2, r.N, r.H)
  {
    Fed(r.pass, i, Dwx(r, i))
  }

  /** dwx's rows 0..T-1 after the run. */
  function Dwxs(r: RunInputs): (rows: seq<seq<real>>)
    requires WellSized(r)
    ensures |rows| == r.T && forall t | 0 <= t < r.T :: rows[t] == Dwx(r, t)
  {
    seq(r.T, t requires 0 <= t < r.T => Dwx(r, t))
  }

  /** tmp_dwx's rows 0..T-1 after a normalised run. */
  function FedRows(r: RunInputs): (rows: seq<seq<real>>)
    requires WellSized(r)
    ensures |rows| == r.T && forall t | 0 <= t < r.T :: rows[t] == FedRow(r, t)
  {
    seq(r.T, t requires 0 <= t < r.T => FedRow(r, t))
  }

  /** The contents of the two buffers every backward run writes: dh and dwx. */
  datatype Buffers = Buffers(dh: seq<real>, dwx: seq<real>)

  /**
   * One IterateInternal call on the buffers, given the rows hs, vs and gs of h,
   * v and grad_out it reads: the kernel and the dh GEMM read dh's first N*H
   * values and dwx's row at dwxOff, the kernel writes that row, and dh becomes
   * StepDh of what they read.
   */
  function Iterate(pass: Pass, p: Pointwise, code: int, N: nat, H: nat, step: nat, u: seq<real>,
                   hs: seq<real>, vs: seq<real>, gs: seq<real>, b: Buffers, dwxOff: nat): (b': Buffers)
    requires Mul(H * 2, H) <= |u| && Size(1, N, H) <= |b.dh| && dwxOff + Size(2, N, H) <= |b.dwx|
    requires |hs| == Size(1, N, H) && |vs| == Size(3, N, H) && |gs| == Size(1, N, H)
    ensures |b'.dh| == |b.dh| && |b'.dwx| == |b.dwx|
  {
    var dhs, dwxs := b.dh[..Size(1, N, H)], b.dwx[dwxOff..dwxOff + Size(2, N, H)];
    Buffers(Splice(b.dh, 0, StepDh(pass, p, code, N, H, step, u, hs, vs, dhs, gs, dwxs)),
            Splice(b.dwx, dwxOff, KernelDwx(GroupingOf(pass), p, code, N, H, hs, vs, dhs, gs, dwxs)))
  }

  /**
   * Iterate in the order the drivers run it: the kernel's writes to dwx's row
   * and to dh, then the dh GEMM fed from the new row, on dh as the kernel left it.
   */
  lemma {:induction false} IterateInOrder(pass: Pass, p: Pointwise, code: int, N: nat, H: nat, step: nat, u: seq<real>,
                                          hs: seq<real>, vs: seq<real>, gs: seq<real>, b: Buffers, dwxOff: nat,
                                          dhK: seq<real>, dwxK: seq<real>, dh': seq<real>)
    requires Mul(H * 2, H) <= |u| && Size(1, N, H) <= |b.dh| && dwxOff + Size(2, N, H) <= |b.dwx|
    requires |hs| == Size(1, N, H) && |vs| == Size(3, N, H) && |gs| == Size(1, N, H)
    requires dwxK == Splice(b.dwx, dwxOff, KernelDwx(GroupingOf(pass), p, code, N, H, hs, vs, b.dh[..Size(1, N, H)], gs,
                                                     b.dwx[dwxOff..dwxOff + Size(2, N, H)]))
    requires dhK == Splice(b.dh, 0, KernelDh(GroupingOf(pass), p, code, N, H, hs, vs, b.dh[..Size(1, N, H)], gs))
    requires dh' == Splice(dhK, 0, DhGemm(N, H, u, Fed(pass, step, dwxK[dwxOff..dwxOff + Size(2, N, H)]), dhK[..Size(1, N, H)]))
    ensures Iterate(pass, p, code, N, H, step, u, hs, vs, gs, b, dwxOff) == Buffers(dh', dwxK)
  {
    var W1, W2 := Size(1, N, H), Size(2, N, H);
    var dhs, dwxs := b.dh[..W1], b.dwx[dwxOff..dwxOff + W2];
    var kdh := KernelDh(GroupingOf(pass), p, code, N, H, hs, vs, dhs, gs);
    var kdwx := KernelDwx(GroupingOf(pass), p, code, N, H, hs, vs, dhs, gs, dwxs);
    SpliceWindow(b.dwx, dwxOff, kdwx);
    SpliceWindow(b.dh, 0, kdh);
    SpliceTwice(b.dh, 0, kdh, DhGemm(N, H, u, Fed(pass, step, kdwx), kdh));
  }

  /** Iterate in terms of the dh values dhs and the dwx row dwxs it reads. */
  lemma {:induction false} IterateReads(pass: Pass, p: Pointwise, code: int, N: nat, H: nat, step: nat, u: seq<real>,
                                        hs: seq<real>, vs: seq<real>, gs: seq<real>, b: Buffers, dwxOff: nat,
                                        dhs: seq<real>, dwxs: seq<real>)
    requires Mul(H * 2, H) <= |u| && Size(1, N, H) <= |b.dh| && dwxOff + Size(2, N, H) <= |b.dwx|
    requires |hs| == Size(1, N, H) && |vs| == Size(3, N, H) && |gs| == Size(1, N, H)
    requires dhs == b.dh[..Size(1, N, H)] && dwxs == b.dwx[dwxOff..dwxOff + Size(2, N, H)]
    ensures StepInputs(N, H, hs, vs, dhs, gs)
    ensures Iterate(pass, p, code, N, H, step, u, hs, vs, gs, b, dwxOff)
            == Buffers(Splice(b.dh, 0, StepDh(pass, p, code, N, H, step, u, hs, vs, dhs, gs, dwxs)),
                       Splice(b.dwx, dwxOff, KernelDwx(GroupingOf(pass), p, code, N, H, hs, vs, dhs, gs, dwxs)))
  {
  }

  /** Buffers of a run: as long as dh's and dwx's initial contents. */
  predicate Fits(r: RunInputs, b: Buffers)
  {
    WellSized(r) && |b.dh| == |r.dh0| && |b.dwx| == |r.dwx0|
  }

  /** Iteration i of the drivers' loop: IterateInternal on h's row i, v's row i, grad_out's row i + 1 and dwx's row i. */
  function Step(r: RunInputs, i: nat, b: Buffers): (b': Buffers)
    requires Fits(r, b) && i < r.T
    ensures Fits(r, b')
  {
    var W1, W2, W3 := Size(1, r.N, r.H), Size(2, r.N, r.H), Size(3, r.N, r.H);
    StepRows(r, i);
    Iterate(r.pass, r.p, r.code, r.N, r.H, i, r.u, Row(r.h, i, W1), Row(r.v, i, W3), Row(r.gradOut, i + 1, W1), b, Mul(i, W2))
  }

  /**
   * What IterateInternal is handed at step i is what Step i reads: the run's
   * pass, primitives, sizes and weights, and at the drivers' offsets (i*NH into
   * h, i*NH*3 into v, (i+1)*NH into grad_out, i*NH*2 into dwx) the rows hs, vs
   * and gs of h, v and grad_out.
   */
  ghost predicate StepSlices(r: RunInputs, i: nat, b: Buffers, pass: Pass, p: Pointwise, code: int, N: nat, H: nat,
                             u: seq<real>, hOff: nat, vOff: nat, gOff: nat, dwxOff: nat,
                             hs: seq<real>, vs: seq<real>, gs: seq<real>)
  {
    var handed := Fits(r, b) && i < r.T &&
      r.pass == pass && r.p == p && r.code == code && r.N == N && r.H == H && r.u == u &&
      hOff == Mul(i, Size(1, N, H)) && vOff == Mul(i, Size(3, N, H)) &&
      gOff == Mul(i + 1, Size(1, N, H)) && dwxOff == Mul(i, Size(2, N, H)) &&
      hOff + Size(1, N, H) <= |r.h| && hs == r.h[hOff..hOff + Size(1, N, H)] &&
      vOff + Size(3, N, H) <= |r.v| && vs == r.v[vOff..vOff + Size(3, N, H)] &&
      gOff + Size(1, N, H) <= |r.gradOut| && gs == r.gradOut[gOff..gOff + Size(1, N, H)] &&
      dwxOff + Size(2, N, H) <= |b.dwx| && Size(1, N, H) <= |b.dh| && Mul(H * 2, H) <= |u|;
    handed
  }

  /** So Iterate on what IterateInternal is handed at step i is Step i. */
  lemma {:induction false} StepIsIterate(r: RunInputs, i: nat, b: Buffers, pass: Pass, p: Pointwise, code: int, N: nat, H: nat,
                                         u: seq<real>, hOff: nat, vOff: nat, gOff: nat, dwxOff: nat,
                                         hs: seq<real>, vs: seq<real>, gs: seq<real>)
    requires StepSlices(r, i, b, pass, p, code, N, H, u, hOff, vOff, gOff, dwxOff, hs, vs, gs)
    ensures Step(r, i, b) == Iterate(pass, p, code, N, H, i, u, hs, vs, gs, b, dwxOff)
  {
    var W1, W2, W3 := Size(1, r.N, r.H), Size(2, r.N, r.H), Size(3, r.N, r.H);
    StepRows(r, i);
    assert hs == Row(r.h, i, W1) && vs == Row(r.v, i, W3) && gs == Row(r.gradOut, i + 1, W1);
  }

  /**
   * The buffers after the iterations for steps T-1 down to i, in the reference
   * recurrence's terms: dh's first N*H values are Dh(i) (the rest as they were),
   * dwx's rows i..T-1 are Dwx(t), and its rows below i and past T-1 are as they were.
   */
  ghost predicate Progress(r: RunInputs, i: nat, b: Buffers)
  {
    var done := Fits(r, b) && i <= r.T && b.dh == Splice(r.dh0, 0, Dh(r, i)) &&
      WrittenFrom(b.dwx, r.dwx0, Size(2, r.N, r.H), i, Dwxs(r));
    done
  }

  /** Before the loop nothing is written: dh holds Dh(T), its own initial contents. */
  lemma {:induction false} ProgressAtStart(r: RunInputs)
    requires WellSized(r)
    ensures Progress(r, r.T, Buffers(r.dh0, r.dwx0))
  {
    assert Splice(r.dh0, 0, Dh(r, r.T)) == r.dh0;
    WrittenFromNothing(r.dwx0, Size(2, r.N, r.H), Dwxs(r));
  }

  /** Step i reads Dh(next) from dh and dwx's initial row i. */
  lemma {:induction false} StepReads(r: RunInputs, i: nat, next: nat, b: Buffers)
    requires Progress(r, next, b) && i < r.T && next == i + 1
    ensures Mul(i, Size(2, r.N, r.H)) + Size(2, r.N, r.H) <= |b.dwx| && Size(1, r.N, r.H) <= |b.dh|
    ensures Row(b.dwx, i, Size(2, r.N, r.H)) == Row(r.dwx0, i, Size(2, r.N, r.H))
    ensures b.dh[..Size(1, r.N, r.H)] == Dh(r, next)
  {
    WrittenFromBelow(b.dwx, r.dwx0, Size(2, r.N, r.H), next, Dwxs(r), i);
    SpliceWindow(r.dh0, 0, Dh(r, next));
  }

  /** Reading Dh(i + 1) and dwx's initial row i, step i writes Dwx(i) into dwx's row i and Dh(i) into dh. */
  lemma {:induction false} StepWrites(r: RunInputs, i: nat, b: Buffers)
    requires Fits(r, b) && i < r.T && Mul(i, Size(2, r.N, r.H)) + Size(2, r.N, r.H) <= |b.dwx| && Size(1, r.N, r.H) <= |b.dh|
    requires Row(b.dwx, i, Size(2, r.N, r.H)) == Row(r.dwx0, i, Size(2, r.N, r.H))
    requires b.dh[..Size(1, r.N, r.H)] == Dh(r, i + 1)
    ensures Step(r, i, b) == Buffers(Splice(b.dh, 0, Dh(r, i)), Splice(b.dwx, Mul(i, Size(2, r.N, r.H)), Dwx(r, i)))
  {
    var W1, W2, W3 := Size(1, r.N, r.H), Size(2, r.N, r.H), Size(3, r.N, r.H);
    RowInBounds(r.T, i, W1);
    RowInBounds(r.T, i, W2);
    RowInBounds(r.T, i, W3);
    RowInBounds(r.T + 1, i + 1, W1);
    IterateReads(r.pass, r.p, r.code, r.N, r.H, i, r.u, Row(r.h, i, W1), Row(r.v, i, W3), Row(r.gradOut, i + 1, W1),
                 b, Mul(i, W2), Dh(r, i + 1), Row(r.dwx0, i, W2));
  }

  /** One more iteration takes the buffers from Progress at next == i + 1 to Progress at i. */
  lemma {:induction false} ProgressStep(r: RunInputs, i: nat, next: nat, b: Buffers, b': Buffers)
    requires Progress(r, next, b) && i < r.T && next == i + 1 && b' == Step(r, i, b)
    ensures Progress(r, i, b')
  {
    var W2 := Size(2, r.N, r.H);
    StepReads(r, i, next, b);
    StepWrites(r, i, b);
    SpliceTwice(r.dh0, 0, Dh(r, next), Dh(r, i));
    WrittenFromSplice(b.dwx, r.dwx0, W2, next, Dwxs(r), i);
  }

  /**
   * tmp_dwx in a normalised run: rows i..T-1 hold what the layer norm's backward
   * sub-kernel made of Dwx(t), everything else is as it was.
   */
  ghost predicate FedProgress(r: RunInputs, i: nat, fed: seq<real>, fed0: seq<real>)
  {
    WellSized(r) && WrittenFrom(fed, fed0, Size(2, r.N, r.H), i, FedRows(r))
  }

  /** Writing the fed row of step i == next - 1 extends tmp_dwx's written rows down to i. */
  lemma {:induction false} FedStep(r: RunInputs, i: nat, next: nat, b: Buffers, b': Buffers,
                                   fed: seq<real>, fed': seq<real>, fed0: seq<real>)
    requires Progress(r, next, b) && i < r.T && next == i + 1 && FedProgress(r, next, fed, fed0) && b' == Step(r, i, b)
    requires Mul(i, Size(2, r.N, r.H)) + Size(2, r.N, r.H) <= |b'.dwx|
    requires fed' == Splice(fed, Mul(i, Size(2, r.N, r.H)), Fed(r.pass, i, Row(b'.dwx, i, Size(2, r.N, r.H))))
    ensures FedProgress(r, i, fed', fed0)
  {
    var W2 := Size(2, r.N, r.H);
    StepReads(r, i, next, b);
    StepWrites(r, i, b);
    SpliceSameRow(b.dwx, i, W2, Dwx(r, i));
    WrittenFromSplice(fed, fed0, W2, next, FedRows(r), i);
  }

  /**
   * The activation dispatch of IterateInternal: codes 0..3 launch the matching
   * PointwiseOperations kernel on dh and dwx's row at dwxOff, any other code
   * launches nothing; either way dh and the row end as KernelDh and KernelDwx say.
   */
  method Dispatch(grouping: Grouping, p: Pointwise, code: int, N: nat, H: nat,
                  h: array<real>, hOff: nat, v: array<real>, vOff: nat, dh: array<real>,
                  gradOut: array<real>, gOff: nat, dwx: array<real>, dwxOff: nat,
                  ghost hs: seq<real>, ghost vs: seq<real>, ghost gs: seq<real>)
    requires KernelBuffers(N, H, h, hOff, v, vOff, dh, 0, gradOut, gOff, dwx, dwxOff)
    requires hs == h[hOff..hOff + Size(1, N, H)] && vs == v[vOff..vOff + Size(3, N, H)] && gs == gradOut[gOff..gOff + Size(1, N, H)]
    modifies dh, dwx
    ensures StepInputs(N, H, hs, vs, old(dh[..Size(1, N, H)]), gs)
    ensures dwx[..] == Splice(old(dwx[..]), dwxOff,
      KernelDwx(grouping, p, code, N, H, hs, vs, old(dh[..Size(1, N, H)]), gs, old(dwx[dwxOff..dwxOff + Size(2, N, H)])))
    ensures dh[..] == Splice(old(dh[..]), 0, KernelDh(grouping, p, code, N, H, hs, vs, old(dh[..Size(1, N, H)]), gs))
  {
    match BackwardKernelFor(code)
    case None =>
      assert Splice(dh[..], 0, dh[..Size(1, N, H)]) == dh[..];
      assert Splice(dwx[..], dwxOff, dwx[dwxOff..dwxOff + Size(2, N, H)]) == dwx[..];
    case Some(act) =>
      Launch(grouping, p, act, N, H, h, hOff, v, vOff, dh, 0, gradOut, gOff, dwx, dwxOff);
      assert h[hOff..hOff + Size(1, N, H)] == hs && v[vOff..vOff + Size(3, N, H)] == vs;
      assert gradOut[gOff..gOff + Size(1, N, H)] == gs;
  }

  /** The dh GEMM of IterateInternal, on dh's first N*H values, with g the gate gradients it is fed. */
  method DhGemmInto(N: nat, H: nat, u: seq<real>, g: seq<real>, dh: array<real>)
    requires Mul(H * 2, H) <= |u| && |g| == Size(2, N, H) && Size(1, N, H) <= dh.Length
    modifies dh
    ensures dh[..] == Splice(old(dh[..]), 0, DhGemm(N, H, u, g, old(dh[..Size(1, N, H)])))
  {
    Widths(H);
    if H == 0 {
      assert Splice(dh[..], 0, dh[..Size(1, N, H)]) == dh[..];
    } else {
      MulComm(N, H);
      ghost var c := dh[..Size(1, N, H)];
      assert dh[0..0 + Mul(N, H)] == c;
      GemmInto(H, N, H * 2, 1.0, Matrix(u, H, OpN), Matrix(g, H * 2, OpN), 1.0, dh, 0, H);
      assert DhGemm(N, H, u, g, c) == Gemm(H, N, H * 2, 1.0, Matrix(u, H, OpN), Matrix(g, H * 2, OpN), 1.0, c, H);
    }
  }

  /** The du GEMM after Run's loop, on du's H x 2H values, with g the gate gradients of all steps. */
  method DuGemmInto(N: nat, H: nat, T: nat, g: seq<real>, hs: seq<real>, du: array<real>)
    requires Mul(Mul(N, T), H * 2) <= |g| && Mul(Mul(N, T), H) <= |hs| && Mul(H, H * 2) <= du.Length
    modifies du
    ensures du[..] == Splice(old(du[..]), 0, DuGemm(N, H, T, g, hs, old(du[..Mul(H, H * 2)])))
  {
    if H == 0 {
      assert Splice(du[..], 0, du[..Mul(H, H * 2)]) == du[..];
    } else {
      ghost var c := du[..Mul(H, H * 2)];
      assert du[0..0 + Mul(H, H * 2)] == c;
      GemmInto(H * 2, H, Mul(N, T), 1.0, Matrix(g, H * 2, OpN), Matrix(hs, H, OpT), 1.0, du, 0, H * 2);
      assert DuGemm(N, H, T, g, hs, c) == Gemm(H * 2, H, Mul(N, T), 1.0, Matrix(g, H * 2, OpN), Matrix(hs, H, OpT), 1.0, c, H * 2);
    }
  }

  /** The du GEMM's N*T columns of 2H gate gradients and of H states are dwx's and h's T step rows. */
  lemma {:induction false} RunWidths(N: nat, H: nat, T: nat)
    ensures Mul(Mul(N, T), H * 2) == Mul(T, Size(2, N, H)) && Mul(Mul(N, T), H) == Mul(T, Size(1, N, H))
  {
    Widths(H);
    MulComm(T, N);
    MulAssoc(T, N, Mul(2, H));
    MulAssoc(T, N, Mul(1, H));
  }
}
