/**
 * The normalised Li-GRU cell's backward pass (`ligru_2_0::BackwardPass`). Run
 * walks the steps from the last one down to step 0; IterateInternal launches the
 * selected gradient kernel, which writes dwx's row of the step and dh, passes
 * that row through the layer norm's backward sub-kernel into tmp_dwx's row, and
 * adds u_t times tmp_dwx's row to dh. After the loop one GEMM accumulates tmp_dwx
 * times h into du. The model runs the calls in source order, which the stream
 * event allows: the du GEMM on the second stream waits only for the event
 * recorded before the last dh GEMM, so the two may overlap, and neither reads or
 * writes what the other writes.
 */
module NormBackward {
  import opened Layout
  import opened Slices
  import opened Primitives
  import opened GradientKernel
  import opened BackwardRecurrence

  class BackwardPass {
    const batchSize: nat
    const inputSize: nat
    const hiddenSize: nat
    const activation: int

    constructor(batchSize: nat, inputSize: nat, hiddenSize: nat, activation: int)
      ensures this.batchSize == batchSize && this.inputSize == inputSize
      ensures this.hiddenSize == hiddenSize && this.activation == activation
    {
      this.batchSize := batchSize;
      this.inputSize := inputSize;
      this.hiddenSize := hiddenSize;
      this.activation := activation;
    }

    /**
     * The buffers of one step: the kernel's, u_t, which neither dh nor dwx is,
     * and tmp_dwx, apart from all of them, with room for a row at dwxOff.
     */
    predicate StepBuffers(u: array<real>, h: array<real>, hOff: nat, v: array<real>, vOff: nat,
                          gradOut: array<real>, gOff: nat, dh: array<real>, tmpDwx: array<real>,
                          dwx: array<real>, dwxOff: nat)
    {
      Mul(hiddenSize * 2, hiddenSize) <= u.Length &&
      KernelBuffers(batchSize, hiddenSize, h, hOff, v, vOff, dh, 0, gradOut, gOff, dwx, dwxOff) &&
      dh != u && dwx != u && dwxOff + Size(2, batchSize, hiddenSize) <= tmpDwx.Length &&
      tmpDwx != u && tmpDwx != h && tmpDwx != v && tmpDwx != gradOut && tmpDwx != dh && tmpDwx != dwx
    }

    /**
     * One step: the kernel writes dwx's row at dwxOff and dh,
     * `layer_norm1.RunPartial(stream1, batch_size, dwx, tmp_dwx)` writes ln of
     * that row into tmp_dwx's row at the same offset, and
     * `gemm(OP_N, OP_N, H, N, 2H, 1, u_t, H, tmp_dwx, 2H, 1, dh, H)` adds u_t
     * times tmp_dwx's row to dh; together, Iterate of the normalised pass.
     */
    method IterateInternal(p: Pointwise, ln: NormFn, step: nat, u: array<real>, h: array<real>, hOff: nat,
                           v: array<real>, vOff: nat, gradOut: array<real>, gOff: nat, dh: array<real>,
                           tmpDwx: array<real>, dwx: array<real>, dwxOff: nat)
      requires StepBuffers(u, h, hOff, v, vOff, gradOut, gOff, dh, tmpDwx, dwx, dwxOff)
      modifies dh, tmpDwx, dwx
      ensures Buffers(dh[..], dwx[..]) ==
        Iterate(Normalised(ln), p, activation, batchSize, hiddenSize, step, old(u[..]),
                old(h[hOff..hOff + Size(1, batchSize, hiddenSize)]), old(v[vOff..vOff + Size(3, batchSize, hiddenSize)]),
                old(gradOut[gOff..gOff + Size(1, batchSize, hiddenSize)]), Buffers(old(dh[..]), old(dwx[..])), dwxOff)
      ensures tmpDwx[..] == Splice(old(tmpDwx[..]), dwxOff, ln(step, dwx[dwxOff..dwxOff + Size(2, batchSize, hiddenSize)]))
    {
      ghost var b, us := Buffers(dh[..], dwx[..]), u[..];
      ghost var hs := h[hOff..hOff + Size(1, batchSize, hiddenSize)];
      ghost var vs := v[vOff..vOff + Size(3, batchSize, hiddenSize)];
      ghost var gs := gradOut[gOff..gOff + Size(1, batchSize, hiddenSize)];
      Dispatch(NormalisedCell, p, activation, batchSize, hiddenSize, h, hOff, v, vOff, dh, gradOut, gOff, dwx, dwxOff, hs, vs, gs);
      ghost var dhK, dwxK := dh[..], dwx[..];
      var normed := ln(step, dwx[dwxOff..dwxOff + Size(2, batchSize, hiddenSize)]);
      SpliceWindow(tmpDwx[..], dwxOff, normed);
      Store(tmpDwx, dwxOff, normed);
      var g := tmpDwx[dwxOff..dwxOff + Size(2, batchSize, hiddenSize)];
      DhGemmInto(batchSize, hiddenSize, u[..], g, dh);
      IterateInOrder(Normalised(ln), p, activation, batchSize, hiddenSize, step, us, hs, vs, gs, b, dwxOff, dhK, dwxK, dh[..]);
    }

    /**
     * The buffers of a run of T steps, as the framework glue allocates them:
     * u_t's H x 2H weights, T steps of h and v, T + 1 steps of grad_out, one step
     * of dh, T steps of dwx and of tmp_dwx and the H x 2H du, the written ones
     * apart from the rest; the du GEMM reads tmp_dwx and h as N*T columns of 2H
     * and of H values.
     */
    predicate RunBuffers(T: nat, u: array<real>, h: array<real>, v: array<real>, gradOut: array<real>,
                         tmpDwx: array<real>, dwx: array<real>, du: array<real>, dh: array<real>)
    {
      var N, H := batchSize, hiddenSize;
      var fits := Mul(H * 2, H) <= u.Length && Mul(T, Size(1, N, H)) <= h.Length && Mul(T, Size(3, N, H)) <= v.Length &&
        Mul(T + 1, Size(1, N, H)) <= gradOut.Length && Size(1, N, H) <= dh.Length && Mul(T, Size(2, N, H)) <= dwx.Length &&
        Mul(T, Size(2, N, H)) <= tmpDwx.Length && Mul(H, H * 2) <= du.Length &&
        Mul(Mul(N, T), H * 2) <= tmpDwx.Length && Mul(Mul(N, T), H) <= h.Length &&
        dh != u && dh != h && dh != v && dh != gradOut && dh != dwx && dh != du &&
        dwx != u && dwx != h && dwx != v && dwx != gradOut && dwx != du &&
        tmpDwx != u && tmpDwx != h && tmpDwx != v && tmpDwx != gradOut && tmpDwx != dh && tmpDwx != dwx && tmpDwx != du &&
        du != u && du != h && du != v && du != gradOut;
      fits
    }

    /** What Run computes from: these arguments, the layer norm and dh's and dwx's initial contents. */
    ghost function Inputs(p: Pointwise, ln: NormFn, T: nat, u: seq<real>, h: seq<real>, v: seq<real>, gradOut: seq<real>,
                          dh0: seq<real>, dwx0: seq<real>): RunInputs
      reads this
    {
      RunInputs(Normalised(ln), p, activation, batchSize, hiddenSize, T, u, h, v, gradOut, dh0, dwx0)
    }

    /** r records Run's arguments: the normalised pass with ln, this pass's fields and the buffers it reads. */
    ghost predicate Describes(r: RunInputs, p: Pointwise, ln: NormFn, u: array<real>, h: array<real>, v: array<real>,
                              gradOut: array<real>, dh: array<real>, dwx: array<real>)
      reads this, u, h, v, gradOut
    {
      var same := r.pass == Normalised(ln) && r.p == p && r.code == activation && r.N == batchSize && r.H == hiddenSize &&
        r.u == u[..] && r.h == h[..] && r.v == v[..] && r.gradOut == gradOut[..] &&
        |r.dh0| == dh.Length && |r.dwx0| == dwx.Length;
      same
    }

    /** The slices Run hands step i satisfy IterateInternal's requirements. */
    lemma {:induction false} RunStepBuffers(T: nat, i: nat, u: array<real>, h: array<real>, v: array<real>, gradOut: array<real>,
                                            tmpDwx: array<real>, dwx: array<real>, du: array<real>, dh: array<real>,
                                            hOff: nat, vOff: nat, gOff: nat, dwxOff: nat)
      requires RunBuffers(T, u, h, v, gradOut, tmpDwx, dwx, du, dh) && i < T
      requires hOff == Mul(i, Mul(batchSize, hiddenSize)) && vOff == hOff * 3
      requires gOff == Mul(i + 1, Mul(batchSize, hiddenSize)) && dwxOff == hOff * 2
      ensures StepBuffers(u, h, hOff, v, vOff, gradOut, gOff, dh, tmpDwx, dwx, dwxOff)
      ensures hOff == Mul(i, Size(1, batchSize, hiddenSize)) && vOff == Mul(i, Size(3, batchSize, hiddenSize))
      ensures gOff == Mul(i + 1, Size(1, batchSize, hiddenSize)) && dwxOff == Mul(i, Size(2, batchSize, hiddenSize))
    {
      var N, H := batchSize, hiddenSize;
      StepOffsets(i, N, H);
      StepOffsets(i + 1, N, H);
      RowInBounds(T, i, Size(1, N, H));
      RowInBounds(T, i, Size(2, N, H));
      RowInBounds(T, i, Size(3, N, H));
      RowInBounds(T + 1, i + 1, Size(1, N, H));
    }

    /** IterateInternal on the slices of step i is Step i, and writes ln of dwx's new row i into tmp_dwx's row i. */
    method StepAt(p: Pointwise, ln: NormFn, ghost r: RunInputs, i: nat, hOff: nat, vOff: nat, gOff: nat, dwxOff: nat,
                  u: array<real>, h: array<real>, v: array<real>, gradOut: array<real>, tmpDwx: array<real>,
                  dwx: array<real>, dh: array<real>)
      requires StepBuffers(u, h, hOff, v, vOff, gradOut, gOff, dh, tmpDwx, dwx, dwxOff)
      requires Fits(r, Buffers(dh[..], dwx[..])) && i < r.T
      requires r.pass == Normalised(ln) && r.p == p && r.code == activation && r.N == batchSize && r.H == hiddenSize
      requires r.u == u[..] && r.h == h[..] && r.v == v[..] && r.gradOut == gradOut[..]
      requires hOff == Mul(i, Size(1, batchSize, hiddenSize)) && vOff == Mul(i, Size(3, batchSize, hiddenSize))
      requires gOff == Mul(i + 1, Size(1, batchSize, hiddenSize)) && dwxOff == Mul(i, Size(2, batchSize, hiddenSize))
      modifies dh, tmpDwx, dwx
      ensures Buffers(dh[..], dwx[..]) == Step(r, i, Buffers(old(dh[..]), old(dwx[..])))
      ensures Mul(i, Size(2, r.N, r.H)) + Size(2, r.N, r.H) <= dwx.Length
      ensures Mul(i, Size(2, r.N, r.H)) + Size(2, r.N, r.H) <= tmpDwx.Length
      ensures tmpDwx[..] == Splice(old(tmpDwx[..]), Mul(i, Size(2, r.N, r.H)), Fed(r.pass, i, Row(dwx[..], i, Size(2, r.N, r.H))))
    {
      StepIsIterate(r, i, Buffers(dh[..], dwx[..]), Normalised(ln), p, activation, batchSize, hiddenSize, u[..],
                    hOff, vOff, gOff, dwxOff, h[hOff..hOff + Size(1, batchSize, hiddenSize)],
                    v[vOff..vOff + Size(3, batchSize, hiddenSize)], gradOut[gOff..gOff + Size(1, batchSize, hiddenSize)]);
      IterateInternal(p, ln, i, u, h, hOff, v, vOff, gradOut, gOff, dh, tmpDwx, dwx, dwxOff);
    }

    /**
     * The driver's pointers for step i (h + i*NH, v + i*NH*3, grad_out + (i+1)*NH,
     * tmp_dwx + i*NH*2, dwx + i*NH*2) name row i of h, v, tmp_dwx and dwx and row
     * i + 1 of grad_out, so IterateInternal with them is Step i and fills tmp_dwx's row i.
     */
    method RunStep(p: Pointwise, ln: NormFn, ghost r: RunInputs, i: nat, u: array<real>, h: array<real>, v: array<real>,
                   gradOut: array<real>, tmpDwx: array<real>, dwx: array<real>, du: array<real>, dh: array<real>)
      requires RunBuffers(r.T, u, h, v, gradOut, tmpDwx, dwx, du, dh) && i < r.T
      requires Describes(r, p, ln, u, h, v, gradOut, dh, dwx)
      modifies dh, tmpDwx, dwx
      ensures Buffers(dh[..], dwx[..]) == Step(r, i, Buffers(old(dh[..]), old(dwx[..])))
      ensures Mul(i, Size(2, r.N, r.H)) + Size(2, r.N, r.H) <= dwx.Length
      ensures Mul(i, Size(2, r.N, r.H)) + Size(2, r.N, r.H) <= tmpDwx.Length
      ensures tmpDwx[..] == Splice(old(tmpDwx[..]), Mul(i, Size(2, r.N, r.H)), Fed(r.pass, i, Row(dwx[..], i, Size(2, r.N, r.H))))
    {
      var NH := Mul(batchSize, hiddenSize);
      var next := i + 1;
      var hOff, vOff, gOff, dwxOff := Mul(i, NH), Mul(i, NH) * 3, Mul(next, NH), Mul(i, NH) * 2;
      RunStepBuffers(r.T, i, u, h, v, gradOut, tmpDwx, dwx, du, dh, hOff, vOff, gOff, dwxOff);
      StepAt(p, ln, r, i, hOff, vOff, gOff, dwxOff, u, h, v, gradOut, tmpDwx, dwx, dh);
    }

    /** The arrays' contents are in Progress down to step i, and tmp_dwx's rows i..T-1 are filled. */
    ghost predicate Advanced(r: RunInputs, i: nat, dh: array<real>, dwx: array<real>, tmpDwx: array<real>, tmp0: seq<real>)
      reads dh, dwx, tmpDwx
    {
      Progress(r, i, Buffers(dh[..], dwx[..])) && FedProgress(r, i, tmpDwx[..], tmp0)
    }

    /** Run's loop is about to do step i: the buffers fit, r records the arguments and steps next..T-1 are done. */
    ghost predicate Ready(p: Pointwise, ln: NormFn, r: RunInputs, i: nat, next: nat, u: array<real>, h: array<real>,
                          v: array<real>, gradOut: array<real>, tmpDwx: array<real>, dwx: array<real>, du: array<real>,
                          dh: array<real>, tmp0: seq<real>)
      reads this, u, h, v, gradOut, tmpDwx, dwx, dh
    {
      var ready := RunBuffers(r.T, u, h, v, gradOut, tmpDwx, dwx, du, dh) && i < r.T && next == i + 1 &&
        Describes(r, p, ln, u, h, v, gradOut, dh, dwx) && Advanced(r, next, dh, dwx, tmpDwx, tmp0);
      ready
    }

    /** One iteration of Run's loop extends Progress and tmp_dwx's filled rows down to step i. */
    method Iteration(p: Pointwise, ln: NormFn, ghost r: RunInputs, i: nat, next: nat, u: array<real>, h: array<real>,
                     v: array<real>, gradOut: array<real>, tmpDwx: array<real>, dwx: array<real>, du: array<real>,
                     dh: array<real>, ghost tmp0: seq<real>)
      requires Ready(p, ln, r, i, next, u, h, v, gradOut, tmpDwx, dwx, du, dh, tmp0)
      modifies dh, tmpDwx, dwx
      ensures Advanced(r, i, dh, dwx, tmpDwx, tmp0)
    {
      ghost var b, fed := Buffers(dh[..], dwx[..]), tmpDwx[..];
      RunStep(p, ln, r, i, u, h, v, gradOut, tmpDwx, dwx, du, dh);
      ProgressStep(r, i, next, b, Buffers(dh[..], dwx[..]));
      FedStep(r, i, next, b, Buffers(dh[..], dwx[..]), fed, tmpDwx[..], tmp0);
    }

    /** Run's loop: IterateInternal for steps T-1 down to 0, which leaves the buffers in Progress at step 0. */
    method Steps(p: Pointwise, ln: NormFn, T: nat, u: array<real>, h: array<real>, v: array<real>, gradOut: array<real>,
                 tmpDwx: array<real>, dwx: array<real>, du: array<real>, dh: array<real>)
      requires RunBuffers(T, u, h, v, gradOut, tmpDwx, dwx, du, dh)
      modifies tmpDwx, dwx, dh
      ensures Advanced(Inputs(p, ln, T, old(u[..]), old(h[..]), old(v[..]), old(gradOut[..]), old(dh[..]), old(dwx[..])),
                       0, dh, dwx, tmpDwx, old(tmpDwx[..]))
    {
      ghost var r := Inputs(p, ln, T, u[..], h[..], v[..], gradOut[..], dh[..], dwx[..]);
      ghost var tmp0 := tmpDwx[..];
      ProgressAtStart(r);
      WrittenFromNothing(tmp0, Size(2, batchSize, hiddenSize), FedRows(r));
      for i: nat := T downto 0
        invariant Advanced(r, i, dh, dwx, tmpDwx, tmp0)
      {
        var next := i + 1;
        Iteration(p, ln, r, i, next, u, h, v, gradOut, tmpDwx, dwx, du, dh, tmp0);
      }
    }

    /**
     * The backward pass over T steps, from step T-1 down to step 0: the buffers
     * end in Progress at step 0, so dh holds Dh(0), dwx's rows 0..T-1 hold Dwx(t)
     * and tmp_dwx's rows hold FedRow(t), ln of them (the rest of all three as it
     * was), and du has gained the du GEMM of tmp_dwx and h.
     */
    method Run(p: Pointwise, ln: NormFn, T: nat, u: array<real>, h: array<real>, v: array<real>, gradOut: array<real>,
               tmpDwx: array<real>, dwx: array<real>, du: array<real>, dh: array<real>)
      requires RunBuffers(T, u, h, v, gradOut, tmpDwx, dwx, du, dh)
      modifies tmpDwx, dwx, du, dh
      ensures Advanced(Inputs(p, ln, T, old(u[..]), old(h[..]), old(v[..]), old(gradOut[..]), old(dh[..]), old(dwx[..])),
                       0, dh, dwx, tmpDwx, old(tmpDwx[..]))
      ensures du[..] == Splice(old(du[..]), 0, DuGemm(batchSize, hiddenSize, T, tmpDwx[..], h[..],
                                                      old(du[..Mul(hiddenSize, hiddenSize * 2)])))
    {
      Steps(p, ln, T, u, h, v, gradOut, tmpDwx, dwx, du, dh);
      DuGemmInto(batchSize, hiddenSize, T, tmpDwx[..], h[..], du);
    }
  }
}
