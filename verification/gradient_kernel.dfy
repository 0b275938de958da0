/**
 * The pointwise gradient kernels of both backward passes
 * (`PointwiseOperationsReLU/LeakyReLU/Tanh/Sin` of the plain and of the
 * normalised cell). The four kernels of a file differ only in the activation
 * derivative, so they are one kernel with an `Activation` argument; the two
 * files differ only in how the factors are grouped, which is the `Grouping`.
 *
 * Thread (col, row) reads h, the three saved values (a, z, hcand), the incoming
 * output gradient and the running state gradient dh_prev at its slots, writes
 * the gradients of the candidate and update pre-activations into dwx and
 * replaces its dh_prev cell by the gradient that flows to the previous step.
 */
module GradientKernel {
  import opened Layout
  import opened Slices
  import opened Primitives

  /** The plain cell's (ligru_1_0) and the normalised cell's (ligru_2_0) arithmetic. */
  datatype Grouping = PlainCell | NormalisedCell

  /** A thread's three results: d(candidate), d(update gate) and the gradient to h[t]. */
  datatype Gradient = Gradient(da: real, dz: real, dhPrev: real)

  /** The per-thread formulas, dh being grad_out + dh_prev. */
  function CellGradient(grouping: Grouping, p: Pointwise, act: Activation,
                        dh: real, a: real, z: real, hcand: real, h: real): Gradient
  {
    match grouping
    case PlainCell =>
      var tmp := (1.0 - z) * dh;
      Gradient(DAct(p, act, a) * tmp, (h - hcand) * z * tmp, dh * z)
    case NormalisedCell =>
      Gradient(DAct(p, act, a) * (1.0 - z) * dh, (h - hcand) * dh * (z * (1.0 - z)), dh * z)
  }

  /**
   * In exact arithmetic the two groupings compute the same gradients; they can
   * only differ by floating-point rounding.
   */
  lemma {:induction false} GroupingsAgree(p: Pointwise, act: Activation, dh: real, a: real, z: real, hcand: real, h: real)
    ensures CellGradient(PlainCell, p, act, dh, a, z, hcand, h) == CellGradient(NormalisedCell, p, act, dh, a, z, hcand, h)
  {
  }

  /** The values behind the kernel's h, v, dh_prev and grad_out pointers for one step. */
  predicate StepInputs(N: nat, H: nat, h: seq<real>, v: seq<real>, dhPrev: seq<real>, gradOut: seq<real>)
  {
    |h| == Size(1, N, H) && |v| == Size(3, N, H) && |dhPrev| == Size(1, N, H) && |gradOut| == Size(1, N, H)
  }

  /** What thread (col, row) computes from the step's inputs. */
  function GradientAt(grouping: Grouping, p: Pointwise, act: Activation, N: nat, H: nat,
                      h: seq<real>, v: seq<real>, dhPrev: seq<real>, gradOut: seq<real>, col: nat, row: nat): Gradient
    requires StepInputs(N, H, h, v, dhPrev, gradOut) && col < N && row < H
  {
    IndexBounds(1, N, H);
    IndexBounds(3, N, H);
    var base := Index(1, H, Thread(col, row), 0);
    var dh := gradOut[base] + dhPrev[base];
    var z := v[Index(3, H, Thread(col, row), SAVED_Z)];
    var a := v[Index(3, H, Thread(col, row), SAVED_A)];
    var hcand := v[Index(3, H, Thread(col, row), SAVED_HCAND)];
    CellGradient(grouping, p, act, dh, a, z, hcand, h[base])
  }

  /** The step's dwx slice once every thread has run: [d candidate, d update] per batch element. */
  function DwxRow(grouping: Grouping, p: Pointwise, act: Activation, N: nat, H: nat,
                  h: seq<real>, v: seq<real>, dhPrev: seq<real>, gradOut: seq<real>): (r: seq<real>)
    requires StepInputs(N, H, h, v, dhPrev, gradOut)
    ensures |r| == Size(2, N, H)
  {
    Tabulate(2, N, H, (col: nat, row: nat, g: nat) =>
      if col < N && row < H then
        var gr := GradientAt(grouping, p, act, N, H, h, v, dhPrev, gradOut, col, row);
        if g == CANDIDATE then gr.da else gr.dz
      else 0.0)
  }

  /** The step's dh_prev buffer once every thread has run. */
  function DhRow(grouping: Grouping, p: Pointwise, act: Activation, N: nat, H: nat,
                 h: seq<real>, v: seq<real>, dhPrev: seq<real>, gradOut: seq<real>): (r: seq<real>)
    requires StepInputs(N, H, h, v, dhPrev, gradOut)
    ensures |r| == Size(1, N, H)
  {
    Tabulate(1, N, H, (col: nat, row: nat, g: nat) =>
      if col < N && row < H then GradientAt(grouping, p, act, N, H, h, v, dhPrev, gradOut, col, row).dhPrev else 0.0)
  }

  /**
   * The step's result seen from one thread: its candidate gradient sits at slot
   * `col*2H + row`, its update gradient H further on, its state gradient at
   * `col*H + row`.
   */
  lemma {:induction false} RowsAt(grouping: Grouping, p: Pointwise, act: Activation, N: nat, H: nat,
               h: seq<real>, v: seq<real>, dhPrev: seq<real>, gradOut: seq<real>, col: nat, row: nat)
    requires StepInputs(N, H, h, v, dhPrev, gradOut) && col < N && row < H
    ensures Index(2, H, Thread(col, row), CANDIDATE) < Size(2, N, H) && Index(2, H, Thread(col, row), UPDATE) < Size(2, N, H)
    ensures Index(1, H, Thread(col, row), 0) < Size(1, N, H)
    ensures DwxRow(grouping, p, act, N, H, h, v, dhPrev, gradOut)[Index(2, H, Thread(col, row), CANDIDATE)]
            == GradientAt(grouping, p, act, N, H, h, v, dhPrev, gradOut, col, row).da
    ensures DwxRow(grouping, p, act, N, H, h, v, dhPrev, gradOut)[Index(2, H, Thread(col, row), UPDATE)]
            == GradientAt(grouping, p, act, N, H, h, v, dhPrev, gradOut, col, row).dz
    ensures DhRow(grouping, p, act, N, H, h, v, dhPrev, gradOut)[Index(1, H, Thread(col, row), 0)]
            == GradientAt(grouping, p, act, N, H, h, v, dhPrev, gradOut, col, row).dhPrev
  {
    var fw := (col: nat, row: nat, g: nat) =>
      if col < N && row < H then
        var gr := GradientAt(grouping, p, act, N, H, h, v, dhPrev, gradOut, col, row);
        if g == CANDIDATE then gr.da else gr.dz
      else 0.0;
    var fd := (col: nat, row: nat, g: nat) =>
      if col < N && row < H then GradientAt(grouping, p, act, N, H, h, v, dhPrev, gradOut, col, row).dhPrev else 0.0;
    TabulateAt(2, N, H, fw, col, row, CANDIDATE);
    TabulateAt(2, N, H, fw, col, row, UPDATE);
    TabulateAt(1, N, H, fd, col, row, 0);
  }

  /** A thread reads only its own dh_prev cell, so the writes of the other threads do not affect it. */
  lemma {:induction false} GradientAtLocal(grouping: Grouping, p: Pointwise, act: Activation, N: nat, H: nat,
                        h: seq<real>, v: seq<real>, dh1: seq<real>, dh2: seq<real>, gradOut: seq<real>, col: nat, row: nat)
    requires StepInputs(N, H, h, v, dh1, gradOut) && StepInputs(N, H, h, v, dh2, gradOut) && col < N && row < H
    requires Index(1, H, Thread(col, row), 0) < Size(1, N, H) && dh1[Index(1, H, Thread(col, row), 0)] == dh2[Index(1, H, Thread(col, row), 0)]
    ensures GradientAt(grouping, p, act, N, H, h, v, dh1, gradOut, col, row)
         == GradientAt(grouping, p, act, N, H, h, v, dh2, gradOut, col, row)
  {
  }

  /** GradientAt on the step's slices, in terms of the thread's own slots of the whole buffers. */
  lemma {:induction false} GradientAtSlots(grouping: Grouping, p: Pointwise, act: Activation, N: nat, H: nat,
                                           h: seq<real>, hOff: nat, v: seq<real>, vOff: nat,
                                           dhPrev: seq<real>, dhOff: nat, gradOut: seq<real>, gOff: nat,
                                           col: nat, row: nat)
    requires hOff + Size(1, N, H) <= |h| && vOff + Size(3, N, H) <= |v|
    requires dhOff + Size(1, N, H) <= |dhPrev| && gOff + Size(1, N, H) <= |gradOut| && col < N && row < H
    ensures Index(1, H, Thread(col, row), 0) < Size(1, N, H)
    ensures Index(3, H, Thread(col, row), SAVED_A) < Size(3, N, H) && Index(3, H, Thread(col, row), SAVED_Z) < Size(3, N, H)
    ensures Index(3, H, Thread(col, row), SAVED_HCAND) < Size(3, N, H)
    ensures var base := Index(1, H, Thread(col, row), 0);
      GradientAt(grouping, p, act, N, H, h[hOff..hOff + Size(1, N, H)], v[vOff..vOff + Size(3, N, H)],
                 dhPrev[dhOff..dhOff + Size(1, N, H)], gradOut[gOff..gOff + Size(1, N, H)], col, row)
      == CellGradient(grouping, p, act, gradOut[gOff + base] + dhPrev[dhOff + base],
                      v[vOff + Index(3, H, Thread(col, row), SAVED_A)], v[vOff + Index(3, H, Thread(col, row), SAVED_Z)],
                      v[vOff + Index(3, H, Thread(col, row), SAVED_HCAND)], h[hOff + base])
  {
    IndexBound(1, N, H, col, row, 0);
    IndexBound(3, N, H, col, row, SAVED_A);
    IndexBound(3, N, H, col, row, SAVED_Z);
    IndexBound(3, N, H, col, row, SAVED_HCAND);
  }

  /**
   * The pointers a launch receives: each names at least one step's worth of
   * values, and the two written buffers overlap neither each other nor the
   * buffers that are only read.
   */
  predicate KernelBuffers(N: nat, H: nat, h: array<real>, hOff: nat, v: array<real>, vOff: nat,
                          dhPrev: array<real>, dhOff: nat, gradOut: array<real>, gOff: nat,
                          dwx: array<real>, dwxOff: nat)
  {
    hOff + Size(1, N, H) <= h.Length && vOff + Size(3, N, H) <= v.Length &&
    dhOff + Size(1, N, H) <= dhPrev.Length && gOff + Size(1, N, H) <= gradOut.Length &&
    dwxOff + Size(2, N, H) <= dwx.Length &&
    dhPrev != dwx && dhPrev != h && dhPrev != v && dhPrev != gradOut &&
    dwx != h && dwx != v && dwx != gradOut
  }

  /**
   * The body of one thread (`row` = blockDim.x * blockIdx.x + threadIdx.x, `col`
   * likewise in y). A thread outside the H x N range returns at once; an in-range
   * thread writes dwx at its update then candidate slot and its dh_prev cell, and
   * nothing else.
   */
  method PointwiseOperations(grouping: Grouping, p: Pointwise, act: Activation, N: nat, H: nat, row: nat, col: nat,
                             h: array<real>, hOff: nat, v: array<real>, vOff: nat,
                             dhPrev: array<real>, dhOff: nat, gradOut: array<real>, gOff: nat,
                             dwx: array<real>, dwxOff: nat)
    requires KernelBuffers(N, H, h, hOff, v, vOff, dhPrev, dhOff, gradOut, gOff, dwx, dwxOff)
    modifies dhPrev, dwx
    ensures row < H && col < N ==>
      Index(1, H, Thread(col, row), 0) < Size(1, N, H) &&
      Index(2, H, Thread(col, row), CANDIDATE) < Size(2, N, H) && Index(2, H, Thread(col, row), UPDATE) < Size(2, N, H)
    ensures row < H && col < N ==>
      var gr := GradientAt(grouping, p, act, N, H, h[hOff..hOff + Size(1, N, H)], v[vOff..vOff + Size(3, N, H)],
                           old(dhPrev[dhOff..dhOff + Size(1, N, H)]), gradOut[gOff..gOff + Size(1, N, H)], col, row);
      dhPrev[..] == old(dhPrev[..])[dhOff + Index(1, H, Thread(col, row), 0) := gr.dhPrev] &&
      dwx[..] == old(dwx[..])[dwxOff + Index(2, H, Thread(col, row), UPDATE) := gr.dz][dwxOff + Index(2, H, Thread(col, row), CANDIDATE) := gr.da]
    ensures !(row < H && col < N) ==> dhPrev[..] == old(dhPrev[..]) && dwx[..] == old(dwx[..])
  {
    if row >= H || col >= N {
      return;
    }
    InRangeThread(grouping, p, act, N, H, row, col, h, hOff, v, vOff, dhPrev, dhOff, gradOut, gOff, dwx, dwxOff);
  }

  /** What an in-range thread does: it writes its dh_prev cell, then its two dwx slots. */
  method InRangeThread(grouping: Grouping, p: Pointwise, act: Activation, N: nat, H: nat, row: nat, col: nat,
                       h: array<real>, hOff: nat, v: array<real>, vOff: nat,
                       dhPrev: array<real>, dhOff: nat, gradOut: array<real>, gOff: nat,
                       dwx: array<real>, dwxOff: nat)
    requires KernelBuffers(N, H, h, hOff, v, vOff, dhPrev, dhOff, gradOut, gOff, dwx, dwxOff) && row < H && col < N
    modifies dhPrev, dwx
    ensures Index(1, H, Thread(col, row), 0) < Size(1, N, H)
    ensures Index(2, H, Thread(col, row), CANDIDATE) < Size(2, N, H) && Index(2, H, Thread(col, row), UPDATE) < Size(2, N, H)
    ensures
      var gr := GradientAt(grouping, p, act, N, H, h[hOff..hOff + Size(1, N, H)], v[vOff..vOff + Size(3, N, H)],
                           old(dhPrev[dhOff..dhOff + Size(1, N, H)]), gradOut[gOff..gOff + Size(1, N, H)], col, row);
      dhPrev[..] == old(dhPrev[..])[dhOff + Index(1, H, Thread(col, row), 0) := gr.dhPrev] &&
      dwx[..] == old(dwx[..])[dwxOff + Index(2, H, Thread(col, row), UPDATE) := gr.dz][dwxOff + Index(2, H, Thread(col, row), CANDIDATE) := gr.da]
  {
    var gr := ThreadGradient(grouping, p, act, N, H, row, col, h, hOff, v, vOff, dhPrev, dhOff, gradOut, gOff);
    IndexBound(1, N, H, col, row, 0);
    IndexBound(2, N, H, col, row, CANDIDATE);
    IndexBound(2, N, H, col, row, UPDATE);
    var idx := Index(2, H, Thread(col, row), 0);
    assert idx + 1 * H == Index(2, H, Thread(col, row), UPDATE) && idx + 0 * H == Index(2, H, Thread(col, row), CANDIDATE);
    dhPrev[dhOff + Index(1, H, Thread(col, row), 0)] := gr.dhPrev;
    WriteGates(dwx, dwxOff + idx, H, gr.dz, gr.da);
  }

  /**
   * The loads and the arithmetic of an in-range thread: dh = grad_out + dh_prev at
   * its cell, then a, z and hcand from its three v slots and h at its cell give
   * the thread's GradientAt.
   */
  method ThreadGradient(grouping: Grouping, p: Pointwise, act: Activation, N: nat, H: nat, row: nat, col: nat,
                        h: array<real>, hOff: nat, v: array<real>, vOff: nat,
                        dhPrev: array<real>, dhOff: nat, gradOut: array<real>, gOff: nat) returns (gr: Gradient)
    requires hOff + Size(1, N, H) <= h.Length && vOff + Size(3, N, H) <= v.Length
    requires dhOff + Size(1, N, H) <= dhPrev.Length && gOff + Size(1, N, H) <= gradOut.Length && row < H && col < N
    ensures gr == GradientAt(grouping, p, act, N, H, h[hOff..hOff + Size(1, N, H)], v[vOff..vOff + Size(3, N, H)],
                             dhPrev[dhOff..dhOff + Size(1, N, H)], gradOut[gOff..gOff + Size(1, N, H)], col, row)
  {
    GradientAtSlots(grouping, p, act, N, H, h[..], hOff, v[..], vOff, dhPrev[..], dhOff, gradOut[..], gOff, col, row);
    var baseIdx := Index(1, H, Thread(col, row), 0);
    var dh := gradOut[gOff + baseIdx] + dhPrev[dhOff + baseIdx];
    var z := v[vOff + Index(3, H, Thread(col, row), SAVED_Z)];
    var a := v[vOff + Index(3, H, Thread(col, row), SAVED_A)];
    var hcand := v[vOff + Index(3, H, Thread(col, row), SAVED_HCAND)];
    gr := CellGradient(grouping, p, act, dh, a, z, hcand, h[hOff + baseIdx]);
  }

  /** A thread's dwx writes: the update gate's gradient, then the candidate's, one gate apart from base. */
  method WriteGates(dwx: array<real>, base: nat, H: nat, dz: real, da: real)
    requires base + 1 * H < dwx.Length
    modifies dwx
    ensures dwx[..] == old(dwx[..])[base + 1 * H := dz][base + 0 * H := da]
  {
    dwx[base + 1 * H] := dz;
    dwx[base + 0 * H] := da;
  }

  /**
   * One thread of the launch, on the buffers' values: from the progress after the
   * threads before (col, row), what PointwiseOperations does gives the progress
   * after (col, row). The thread reads dh_prev before any other thread has
   * overwritten its cell, so it sees the launch's input.
   */
  lemma {:induction false} ThreadStep(grouping: Grouping, p: Pointwise, act: Activation, N: nat, H: nat,
                                      hs: seq<real>, vs: seq<real>, dhs: seq<real>, gs: seq<real>,
                                      dwx: seq<real>, dwx': seq<real>, dwx0: seq<real>, dwxOff: nat,
                                      dh: seq<real>, dh': seq<real>, dh0: seq<real>, dhOff: nat, col: nat, row: nat)
    requires StepInputs(N, H, hs, vs, dhs, gs) && dhOff + Size(1, N, H) <= |dh0| && dhs == dh0[dhOff..dhOff + Size(1, N, H)]
    requires Filled(2, N, H, dwx, dwx0, dwxOff, DwxRow(grouping, p, act, N, H, hs, vs, dhs, gs), col, row)
    requires Filled(1, N, H, dh, dh0, dhOff, DhRow(grouping, p, act, N, H, hs, vs, dhs, gs), col, row)
    requires row < H && col < N ==>
      Index(1, H, Thread(col, row), 0) < Size(1, N, H) &&
      Index(2, H, Thread(col, row), CANDIDATE) < Size(2, N, H) && Index(2, H, Thread(col, row), UPDATE) < Size(2, N, H)
    requires row < H && col < N ==>
      var gr := GradientAt(grouping, p, act, N, H, hs, vs, dh[dhOff..dhOff + Size(1, N, H)], gs, col, row);
      dh' == dh[dhOff + Index(1, H, Thread(col, row), 0) := gr.dhPrev] &&
      dwx' == dwx[dwxOff + Index(2, H, Thread(col, row), UPDATE) := gr.dz][dwxOff + Index(2, H, Thread(col, row), CANDIDATE) := gr.da]
    requires !(row < H && col < N) ==> dh' == dh && dwx' == dwx
    ensures Filled(2, N, H, dwx', dwx0, dwxOff, DwxRow(grouping, p, act, N, H, hs, vs, dhs, gs), col, row + 1)
    ensures Filled(1, N, H, dh', dh0, dhOff, DhRow(grouping, p, act, N, H, hs, vs, dhs, gs), col, row + 1)
  {
    var fullDwx, fullDh := DwxRow(grouping, p, act, N, H, hs, vs, dhs, gs), DhRow(grouping, p, act, N, H, hs, vs, dhs, gs);
    if row < H && col < N {
      var base := Index(1, H, Thread(col, row), 0);
      var dhsBefore := dh[dhOff..dhOff + Size(1, N, H)];
      assert dhsBefore[base] == dhs[base];
      GradientAtLocal(grouping, p, act, N, H, hs, vs, dhsBefore, dhs, gs, col, row);
      RowsAt(grouping, p, act, N, H, hs, vs, dhs, gs, col, row);
      FilledAfterWrite2(N, H, dwx, dwx0, dwxOff, fullDwx, col, row);
      FilledAfterWrite1(N, H, dh, dh0, dhOff, fullDh, col, row);
    } else {
      FilledSkip(2, N, H, dwx, dwx0, dwxOff, fullDwx, col, row);
      FilledSkip(1, N, H, dh, dh0, dhOff, fullDh, col, row);
    }
  }

  /** The threads (col, 0), (col, 1), ... of one column of the grid, one after the other. */
  method LaunchColumn(grouping: Grouping, p: Pointwise, act: Activation, N: nat, H: nat,
                      h: array<real>, hOff: nat, v: array<real>, vOff: nat,
                      dhPrev: array<real>, dhOff: nat, gradOut: array<real>, gOff: nat,
                      dwx: array<real>, dwxOff: nat, col: nat,
                      ghost hs: seq<real>, ghost vs: seq<real>, ghost dhs: seq<real>, ghost gs: seq<real>,
                      ghost dwx0: seq<real>, ghost dh0: seq<real>)
    requires KernelBuffers(N, H, h, hOff, v, vOff, dhPrev, dhOff, gradOut, gOff, dwx, dwxOff)
    requires hs == h[hOff..hOff + Size(1, N, H)] && vs == v[vOff..vOff + Size(3, N, H)] && gs == gradOut[gOff..gOff + Size(1, N, H)]
    requires StepInputs(N, H, hs, vs, dhs, gs) && dhOff + Size(1, N, H) <= |dh0| && dhs == dh0[dhOff..dhOff + Size(1, N, H)]
    requires Filled(2, N, H, dwx[..], dwx0, dwxOff, DwxRow(grouping, p, act, N, H, hs, vs, dhs, gs), col, 0)
    requires Filled(1, N, H, dhPrev[..], dh0, dhOff, DhRow(grouping, p, act, N, H, hs, vs, dhs, gs), col, 0)
    modifies dhPrev, dwx
    ensures Filled(2, N, H, dwx[..], dwx0, dwxOff, DwxRow(grouping, p, act, N, H, hs, vs, dhs, gs), col + 1, 0)
    ensures Filled(1, N, H, dhPrev[..], dh0, dhOff, DhRow(grouping, p, act, N, H, hs, vs, dhs, gs), col + 1, 0)
  {
    GridCovers(N, H);
    for row := 0 to GridX(H) * 32
      invariant Filled(2, N, H, dwx[..], dwx0, dwxOff, DwxRow(grouping, p, act, N, H, hs, vs, dhs, gs), col, row)
      invariant Filled(1, N, H, dhPrev[..], dh0, dhOff, DhRow(grouping, p, act, N, H, hs, vs, dhs, gs), col, row)
      invariant hs == h[hOff..hOff + Size(1, N, H)] && vs == v[vOff..vOff + Size(3, N, H)] && gs == gradOut[gOff..gOff + Size(1, N, H)]
    {
      ghost var dwxBefore, dhBefore := dwx[..], dhPrev[..];
      PointwiseOperations(grouping, p, act, N, H, row, col, h, hOff, v, vOff, dhPrev, dhOff, gradOut, gOff, dwx, dwxOff);
      ThreadStep(grouping, p, act, N, H, hs, vs, dhs, gs, dwxBefore, dwx[..], dwx0, dwxOff, dhBefore, dhPrev[..], dh0, dhOff, col, row);
    }
    FilledNextCol(2, N, H, dwx[..], dwx0, dwxOff, DwxRow(grouping, p, act, N, H, hs, vs, dhs, gs), col, GridX(H) * 32);
    FilledNextCol(1, N, H, dhPrev[..], dh0, dhOff, DhRow(grouping, p, act, N, H, hs, vs, dhs, gs), col, GridX(H) * 32);
  }

  /**
   * `PointwiseOperations<<<gridDim, blockDim>>>` with blockDim (32, 16) and the
   * ceil-div gridDim, run as a sequential loop over every thread of the grid.
   * Because in-range threads write pairwise distinct slots and each reads only
   * its own dh_prev cell (IndexInjective), this loop is one valid schedule of the
   * parallel launch, and its result is the step's DwxRow and DhRow.
   */
  method Launch(grouping: Grouping, p: Pointwise, act: Activation, N: nat, H: nat,
                h: array<real>, hOff: nat, v: array<real>, vOff: nat,
                dhPrev: array<real>, dhOff: nat, gradOut: array<real>, gOff: nat,
                dwx: array<real>, dwxOff: nat)
    requires KernelBuffers(N, H, h, hOff, v, vOff, dhPrev, dhOff, gradOut, gOff, dwx, dwxOff)
    modifies dhPrev, dwx
    ensures StepInputs(N, H, h[hOff..hOff + Size(1, N, H)], v[vOff..vOff + Size(3, N, H)],
                       old(dhPrev[dhOff..dhOff + Size(1, N, H)]), gradOut[gOff..gOff + Size(1, N, H)])
    ensures dwx[..] == Splice(old(dwx[..]), dwxOff,
      DwxRow(grouping, p, act, N, H, h[hOff..hOff + Size(1, N, H)], v[vOff..vOff + Size(3, N, H)],
             old(dhPrev[dhOff..dhOff + Size(1, N, H)]), gradOut[gOff..gOff + Size(1, N, H)]))
    ensures dhPrev[..] == Splice(old(dhPrev[..]), dhOff,
      DhRow(grouping, p, act, N, H, h[hOff..hOff + Size(1, N, H)], v[vOff..vOff + Size(3, N, H)],
            old(dhPrev[dhOff..dhOff + Size(1, N, H)]), gradOut[gOff..gOff + Size(1, N, H)]))
  {
    ghost var hs, vs, gs := h[hOff..hOff + Size(1, N, H)], v[vOff..vOff + Size(3, N, H)], gradOut[gOff..gOff + Size(1, N, H)];
    ghost var dh0, dwx0 := dhPrev[..], dwx[..];
    ghost var dhs := dhPrev[dhOff..dhOff + Size(1, N, H)];
    FilledStart(2, N, H, dwx0, dwxOff, DwxRow(grouping, p, act, N, H, hs, vs, dhs, gs));
    FilledStart(1, N, H, dh0, dhOff, DhRow(grouping, p, act, N, H, hs, vs, dhs, gs));
    GridCovers(N, H);
    for col := 0 to GridY(N) * 16
      invariant Filled(2, N, H, dwx[..], dwx0, dwxOff, DwxRow(grouping, p, act, N, H, hs, vs, dhs, gs), col, 0)
      invariant Filled(1, N, H, dhPrev[..], dh0, dhOff, DhRow(grouping, p, act, N, H, hs, vs, dhs, gs), col, 0)
      invariant hs == h[hOff..hOff + Size(1, N, H)] && vs == v[vOff..vOff + Size(3, N, H)] && gs == gradOut[gOff..gOff + Size(1, N, H)]
    {
      LaunchColumn(grouping, p, act, N, H, h, hOff, v, vOff, dhPrev, dhOff, gradOut, gOff, dwx, dwxOff, col, hs, vs, dhs, gs, dwx0, dh0);
    }
    FilledEnd(2, N, H, dwx[..], dwx0, dwxOff, DwxRow(grouping, p, act, N, H, hs, vs, dhs, gs), GridY(N) * 16);
    FilledEnd(1, N, H, dhPrev[..], dh0, dhOff, DhRow(grouping, p, act, N, H, hs, vs, dhs, gs), GridY(N) * 16);
  }
}
