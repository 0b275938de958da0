/**
 * The plain Li-GRU cell's backward pass (`ligru_1_0::BackwardPass`). Run walks
 * the steps from the last one down to step 0; IterateInternal launches the
 * selected gradient kernel, which writes dwx's row of the step and dh, then adds
 * u_t times that row to dh. After the loop one GEMM accumulates dwx times h into
 * du. The model runs the calls in source order, which the stream event allows.
 * The du GEMM on the second stream waits only for the event recorded after the
 * last kernel launch, so it may overlap the final dh GEMM. With a code outside
 * 0..3 no event is ever recorded, so it may overlap every dh GEMM of the loop.
 * The result is the same: du's GEMM writes only du, each dh GEMM writes only dh,
 * and with no kernel selected nothing writes dwx.
 */
module PlainBackward {
  import opened Layout
  import opened Slices
  import opened Primitives
  import opened GradientKernel
  import opened BackwardRecurrence

  class BackwardPass {
    const batchSize: nat
    const inputSize: nat
    const hiddenSize: nat
    const activation: int

    constructor(batchSize: nat, inputSize: nat, hiddenSize: nat, activation: int)
      ensures this.batchSize == batchSize && this.inputSize == inputSize
      ensures this.hiddenSize == hiddenSize && this.activation == activation
    {
      this.batchSize := batchSize;
      this.inputSize := inputSize;
      this.hiddenSize := hiddenSize;
      this.activation := activation;
    }

    /** The buffers of one step: the kernel's, and u_t, which neither dh nor dwx is. */
    predicate StepBuffers(u: array<real>, h: array<real>, hOff: nat, v: array<real>, vOff: nat,
                          gradOut: array<real>, gOff: nat, dh: array<real>, dwx: array<real>, dwxOff: nat)
    {
      Mul(hiddenSize * 2, hiddenSize) <= u.Length &&
      KernelBuffers(batchSize, hiddenSize, h, hOff, v, vOff, dh, 0, gradOut, gOff, dwx, dwxOff) &&
      dh != u && dwx != u
    }

    /**
     * One step: the kernel writes dwx's row at dwxOff and dh, then
     * `gemm(OP_N, OP_N, H, N, 2H, 1, u_t, H, dwx, 2H, 1, dh, H)` adds u_t times
     * the new row to dh; together, Iterate of the plain pass.
     */
    method IterateInternal(p: Pointwise, step: nat, u: array<real>, h: array<real>, hOff: nat, v: array<real>, vOff: nat,
                           gradOut: array<real>, gOff: nat, dh: array<real>, dwx: array<real>, dwxOff: nat)
      requires StepBuffers(u, h, hOff, v, vOff, gradOut, gOff, dh, dwx, dwxOff)
      modifies dh, dwx
      ensures Buffers(dh[..], dwx[..]) ==
        Iterate(Plain, p, activation, batchSize, hiddenSize, step, old(u[..]),
                old(h[hOff..hOff + Size(1, batchSize, hiddenSize)]), old(v[vOff..vOff + Size(3, batchSize, hiddenSize)]),
                old(gradOut[gOff..gOff + Size(1, batchSize, hiddenSize)]), Buffers(old(dh[..]), old(dwx[..])), dwxOff)
    {
      ghost var b, us := Buffers(dh[..], dwx[..]), u[..];
      ghost var hs := h[hOff..hOff + Size(1, batchSize, hiddenSize)];
      ghost var vs := v[vOff..vOff + Size(3, batchSize, hiddenSize)];
      ghost var gs := gradOut[gOff..gOff + Size(1, batchSize, hiddenSize)];
      Dispatch(PlainCell, p, activation, batchSize, hiddenSize, h, hOff, v, vOff, dh, gradOut, gOff, dwx, dwxOff, hs, vs, gs);
      ghost var dhK, dwxK := dh[..], dwx[..];
      var g := dwx[dwxOff..dwxOff + Size(2, batchSize, hiddenSize)];
      DhGemmInto(batchSize, hiddenSize, u[..], g, dh);
      IterateInOrder(Plain, p, activation, batchSize, hiddenSize, step, us, hs, vs, gs, b, dwxOff, dhK, dwxK, dh[..]);
    }

    /**
     * The buffers of a run of T steps, as the framework glue allocates them:
     * u_t's H x 2H weights, T steps of h and v, T + 1 steps of grad_out, one step
     * of dh, T steps of dwx and the H x 2H du, the written ones apart from the rest;
     * the du GEMM reads dwx and h as N*T columns of 2H and of H values.
     */
    predicate RunBuffers(T: nat, u: array<real>, h: array<real>, v: array<real>, gradOut: array<real>,
                         dwx: array<real>, du: array<real>, dh: array<real>)
    {
      var N, H := batchSize, hiddenSize;
      var fits := Mul(H * 2, H) <= u.Length && Mul(T, Size(1, N, H)) <= h.Length && Mul(T, Size(3, N, H)) <= v.Length &&
        Mul(T + 1, Size(1, N, H)) <= gradOut.Length && Size(1, N, H) <= dh.Length && Mul(T, Size(2, N, H)) <= dwx.Length &&
        Mul(H, H * 2) <= du.Length && Mul(Mul(N, T), H * 2) <= dwx.Length && Mul(Mul(N, T), H) <= h.Length &&
        dh != u && dh != h && dh != v && dh != gradOut && dh != dwx && dh != du &&
        dwx != u && dwx != h && dwx != v && dwx != gradOut && dwx != du &&
        du != u && du != h && du != v && du != gradOut;
      fits
    }

    /** What Run computes from: these arguments and dh's and dwx's initial contents. */
    ghost function Inputs(p: Pointwise, T: nat, u: seq<real>, h: seq<real>, v: seq<real>, gradOut: seq<real>,
                          dh0: seq<real>, dwx0: seq<real>): RunInputs
      reads this
    {
      RunInputs(Plain, p, activation, batchSize, hiddenSize, T, u, h, v, gradOut, dh0, dwx0)
    }

    /** r records Run's arguments: the plain pass, this pass's fields and the buffers it reads. */
    ghost predicate Describes(r: RunInputs, p: Pointwise, u: array<real>, h: array<real>, v: array<real>,
                              gradOut: array<real>, dh: array<real>, dwx: array<real>)
      reads this, u, h, v, gradOut
    {
      var same := r.pass == Plain && r.p == p && r.code == activation && r.N == batchSize && r.H == hiddenSize &&
        r.u == u[..] && r.h == h[..] && r.v == v[..] && r.gradOut == gradOut[..] &&
        |r.dh0| == dh.Length && |r.dwx0| == dwx.Length;
      same
    }

    /** The slices Run hands step i satisfy IterateInternal's requirements. */
    lemma {:induction false} RunStepBuffers(T: nat, i: nat, u: array<real>, h: array<real>, v: array<real>, gradOut: array<real>,
                                            dwx: array<real>, du: array<real>, dh: array<real>,
                                            hOff: nat, vOff: nat, gOff: nat, dwxOff: nat)
      requires RunBuffers(T, u, h, v, gradOut, dwx, du, dh) && i < T
      requires hOff == Mul(i, Mul(batchSize, hiddenSize)) && vOff == hOff * 3
      requires gOff == Mul(i + 1, Mul(batchSize, hiddenSize)) && dwxOff == hOff * 2
      ensures StepBuffers(u, h, hOff, v, vOff, gradOut, gOff, dh, dwx, dwxOff)
      ensures hOff == Mul(i, Size(1, batchSize, hiddenSize)) && vOff == Mul(i, Size(3, batchSize, hiddenSize))
      ensures gOff == Mul(i + 1, Size(1, batchSize, hiddenSize)) && dwxOff == Mul(i, Size(2, batchSize, hiddenSize))
    {
      var N, H := batchSize, hiddenSize;
      StepOffsets(i, N, H);
      StepOffsets(i + 1, N, H);
      RowInBounds(T, i, Size(1, N, H));
      RowInBounds(T, i, Size(2, N, H));
      RowInBounds(T, i, Size(3, N, H));
      RowInBounds(T + 1, i + 1, Size(1, N, H));
    }

    /** IterateInternal on the slices of step i is Step i. */
    method StepAt(p: Pointwise, ghost r: RunInputs, i: nat, hOff: nat, vOff: nat, gOff: nat, dwxOff: nat,
                  u: array<real>, h: array<real>, v: array<real>, gradOut: array<real>, dwx: array<real>, dh: array<real>)
      requires StepBuffers(u, h, hOff, v, vOff, gradOut, gOff, dh, dwx, dwxOff)
      requires Fits(r, Buffers(dh[..], dwx[..])) && i < r.T
      requires r.pass == Plain && r.p == p && r.code == activation && r.N == batchSize && r.H == hiddenSize
      requires r.u == u[..] && r.h == h[..] && r.v == v[..] && r.gradOut == gradOut[..]
      requires hOff == Mul(i, Size(1, batchSize, hiddenSize)) && vOff == Mul(i, Size(3, batchSize, hiddenSize))
      requires gOff == Mul(i + 1, Size(1, batchSize, hiddenSize)) && dwxOff == Mul(i, Size(2, batchSize, hiddenSize))
      modifies dh, dwx
      ensures Buffers(dh[..], dwx[..]) == Step(r, i, Buffers(old(dh[..]), old(dwx[..])))
    {
      StepIsIterate(r, i, Buffers(dh[..], dwx[..]), Plain, p, activation, batchSize, hiddenSize, u[..], hOff, vOff, gOff, dwxOff,
                    h[hOff..hOff + Size(1, batchSize, hiddenSize)], v[vOff..vOff + Size(3, batchSize, hiddenSize)],
                    gradOut[gOff..gOff + Size(1, batchSize, hiddenSize)]);
      IterateInternal(p, i, u, h, hOff, v, vOff, gradOut, gOff, dh, dwx, dwxOff);
    }

    /**
     * The driver's pointers for step i (h + i*NH, v + i*NH*3, grad_out + (i+1)*NH,
     * dwx + i*NH*2) name row i of h, v and dwx and row i + 1 of grad_out, so
     * IterateInternal with them is Step i.
     */
    method RunStep(p: Pointwise, ghost r: RunInputs, i: nat, u: array<real>, h: array<real>, v: array<real>,
                   gradOut: array<real>, dwx: array<real>, du: array<real>, dh: array<real>)
      requires RunBuffers(r.T, u, h, v, gradOut, dwx, du, dh) && i < r.T
      requires Describes(r, p, u, h, v, gradOut, dh, dwx)
      modifies dh, dwx
      ensures Buffers(dh[..], dwx[..]) == Step(r, i, Buffers(old(dh[..]), old(dwx[..])))
    {
      var NH := Mul(batchSize, hiddenSize);
      var next := i + 1;
      var hOff, vOff, gOff, dwxOff := Mul(i, NH), Mul(i, NH) * 3, Mul(next, NH), Mul(i, NH) * 2;
      RunStepBuffers(r.T, i, u, h, v, gradOut, dwx, du, dh, hOff, vOff, gOff, dwxOff);
      StepAt(p, r, i, hOff, vOff, gOff, dwxOff, u, h, v, gradOut, dwx, dh);
    }

    /** The arrays' contents are in Progress down to step i. */
    ghost predicate Advanced(r: RunInputs, i: nat, dh: array<real>, dwx: array<real>)
      reads dh, dwx
    {
      Progress(r, i, Buffers(dh[..], dwx[..]))
    }

    /** Run's loop is about to do step i: the buffers fit, r records the arguments and steps next..T-1 are done. */
    ghost predicate Ready(p: Pointwise, r: RunInputs, i: nat, next: nat, u: array<real>, h: array<real>, v: array<real>,
                          gradOut: array<real>, dwx: array<real>, du: array<real>, dh: array<real>)
      reads this, u, h, v, gradOut, dwx, dh
    {
      var ready := RunBuffers(r.T, u, h, v, gradOut, dwx, du, dh) && i < r.T && next == i + 1 &&
        Describes(r, p, u, h, v, gradOut, dh, dwx) && Advanced(r, next, dh, dwx);
      ready
    }

    /** One iteration of Run's loop extends Progress down to step i. */
    method Iteration(p: Pointwise, ghost r: RunInputs, i: nat, next: nat, u: array<real>, h: array<real>, v: array<real>,
                     gradOut: array<real>, dwx: array<real>, du: array<real>, dh: array<real>)
      requires Ready(p, r, i, next, u, h, v, gradOut, dwx, du, dh)
      modifies dh, dwx
      ensures Advanced(r, i, dh, dwx)
    {
      ghost var b := Buffers(dh[..], dwx[..]);
      RunStep(p, r, i, u, h, v, gradOut, dwx, du, dh);
      ProgressStep(r, i, next, b, Buffers(dh[..], dwx[..]));
    }

    /** Run's loop: IterateInternal for steps T-1 down to 0, which leaves the buffers in Progress at step 0. */
    method Steps(p: Pointwise, T: nat, u: array<real>, h: array<real>, v: array<real>, gradOut: array<real>,
                 dwx: array<real>, du: array<real>, dh: array<real>)
      requires RunBuffers(T, u, h, v, gradOut, dwx, du, dh)
      modifies dwx, dh
      ensures Advanced(Inputs(p, T, old(u[..]), old(h[..]), old(v[..]), old(gradOut[..]), old(dh[..]), old(dwx[..])), 0, dh, dwx)
    {
      ghost var r := Inputs(p, T, u[..], h[..], v[..], gradOut[..], dh[..], dwx[..]);
      ProgressAtStart(r);
      for i: nat := T downto 0
        invariant Advanced(r, i, dh, dwx)
      {
        var next := i + 1;
        Iteration(p, r, i, next, u, h, v, gradOut, dwx, du, dh);
      }
    }

    /**
     * The backward pass over T steps, from step T-1 down to step 0: the buffers
     * end in Progress at step 0, so dh holds Dh(0), dwx's rows 0..T-1 hold Dwx(t)
     * (the rest of both as it was), and du has gained the du GEMM of dwx and h.
     */
    method Run(p: Pointwise, T: nat, u: array<real>, h: array<real>, v: array<real>, gradOut: array<real>,
               dwx: array<real>, du: array<real>, dh: array<real>)
      requires RunBuffers(T, u, h, v, gradOut, dwx, du, dh)
      modifies dwx, du, dh
      ensures Advanced(Inputs(p, T, old(u[..]), old(h[..]), old(v[..]), old(gradOut[..]), old(dh[..]), old(dwx[..])), 0, dh, dwx)
      ensures du[..] == Splice(old(du[..]), 0, DuGemm(batchSize, hiddenSize, T, dwx[..], h[..], old(du[..Mul(hiddenSize, hiddenSize * 2)])))
    {
      Steps(p, T, u, h, v, gradOut, dwx, du, dh);
      DuGemmInto(batchSize, hiddenSize, T, dwx[..], h[..], du);
    }
  }
}
