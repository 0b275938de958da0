# Li-GRU CUDA core, modelled in Dafny

The Li-GRU ("light GRU") cell has one gate and no reset gate. For a batch of N
sequences with H hidden units, each time step t computes:

    z      = sigmoid(wx_z + uh_z)         update gate
    a      = wx_a + uh_a                  candidate pre-activation
    hcand  = act(a)                       relu, leaky_relu, sin or tanh
    h[t+1] = z * h[t] + (1 - z) * hcand

Here `wx` is the precomputed input projection and `uh = U h[t]` is the recurrent
product. In the normalised cell (`ligru_2_0`), `uh` first passes through a
layer-normalisation sub-kernel.

This project models three CUDA files:
- the normalised cell's forward pass;
- the plain cell's backward pass (`ligru_1_0`);
- the normalised cell's backward pass (`ligru_2_0`).

It proves what each kernel launch, each GEMM, each `IterateInternal` and each
`Run` leaves in the buffers. It also proves that `Run` computes a reference
recurrence defined on values.

How the pieces are represented:

- **Buffers** are flat `array<real>` values. A device pointer becomes an array
  plus an offset. Row t of a buffer of T steps, each w values wide, is `Row(s, t, w)`.
- **Layout.** Thread (col, row), with `col` the batch element and `row` the hidden
  unit, finds gate g of a buffer with k gates per batch element at
  `Index(k, H, Thread(col, row), g) = col*k*H + row + g*H`.
- **Kernels.** A kernel launch is the thread body (`PointwiseOperations`) run
  for every thread of the padded grid, one thread after another. The grid is
  made of 32 x 16 blocks, with ceil(H/32) x ceil(N/16) blocks. In-range threads
  write pairwise distinct slots, and each thread reads only its own cells before
  writing them. So this order is one valid schedule of the parallel launch, and
  its result is a function of the inputs alone: `HOutRow`/`SaveRow` in the forward
  pass, `DwxRow`/`DhRow` in the backward passes.
- **Per-activation kernels.** The four `PointwiseOperations<Act>` kernels of a
  file differ only in the activation or its derivative. Each file's four kernels
  are one method with an `Activation` argument. The `if`/`else` chains on the
  activation code are the functions `BackwardKernelFor` and `ForwardKernelFor`.
- **GEMM.** `blas<T>::gemm` is the column-major cuBLAS specification
  `C := alpha op(A) op(B) + beta C`, with beta 0 meaning C is not read.
- **Drivers.** Each pass is a class with the source's configuration fields.
  `IterateInternal` is one time step, and `Run` is the loop over the steps. The
  forward loop goes up from step 0. The backward loops go down from step T-1 and
  then run the du GEMM.
- **Reference recurrence.** `NormForward.State`, and `BackwardRecurrence.Dh` and
  `Dwx`, are that recurrence. `Progress` predicates, preserved by every loop
  iteration, tie the buffers to it.

The two backward files group the factors of the gate gradients differently:
- plain: `dzt = (h - hcand) * z * tmp` with `tmp = (1 - z) * dh`;
- normalised: `dzt = (h - hcand) * dh * (z * (1 - z))`.

Both contain the factor `z * (1 - z)`, so in exact arithmetic they are the same
value (`GradientKernel.GroupingsAgree`). They can differ only by floating-point
rounding. Each file's kernel is modelled with its own grouping.

## Model

| member | source | states |
|---|---|---|
| Primitives.Code | lib/ligru_1_0_backward_gpu.cu.cc:266-282 | The activation codes are 0 relu, 1 leaky_relu, 2 sin and 3 tanh; every activation has a code in 0..3. |
| Primitives.BackwardKernelFor | lib/ligru_1_0_backward_gpu.cu.cc:266-282 | A backward `IterateInternal` launches a kernel iff the code is in 0..3, and the kernel it launches has that code. Every other code launches nothing. `lib/ligru_2_0_backward_gpu.cu.cc:231-247` dispatches the same way. |
| Primitives.ForwardKernelFor | lib/ligru_2_0_forward_gpu.cu.cc:256-281 | The forward pass launches a kernel iff the code is in 0..3 and, in inference, is not 2 (no sin kernel in inference). The kernel it launches has that code. |
| Primitives.DispatchInvertsCode | lib/ligru_2_0_forward_gpu.cu.cc:256-281 | Dispatch inverts Code. In training the forward pass launches exactly what the backward passes launch. Inference launches a subset of training, and drops only sin. |
| Layout.IndexIsProduct | lib/ligru_1_0_backward_gpu.cu.cc:37-44 | The model's Index is exactly the kernels' integer formula `col * (hidden_dim * k) + row + g * hidden_dim`. |
| Layout.IndexBound | lib/ligru_1_0_backward_gpu.cu.cc:37-44 | Every slot `col*kH + row + g*H` of an in-range thread lies inside the step's N*k*H values. |
| Layout.IndexInjective | lib/ligru_1_0_backward_gpu.cu.cc:37-58 | Two in-range (col, row, g) triples name the same slot iff they are equal, so no two threads of a launch write the same cell. |
| Layout.SlotOf | lib/ligru_2_0_forward_gpu.cu.cc:39-46 | Every slot of a step's buffer is the slot of some in-range (col, row, g), so a launch fills its whole slice. |
| Layout.TabulateAt | lib/ligru_2_0_forward_gpu.cu.cc:39-46 | In the buffer built from a per-thread function f, the slot of (col, row, g) holds f(col, row, g). |
| Layout.GridCovers | lib/ligru_1_0_backward_gpu.cu.cc:262-264 | The ceil-div grid of 32 x 16 blocks reaches every hidden unit and every batch element. Its last block row and last block column each contain an in-range thread. |
| Layout.ThreadCoordBijective | lib/ligru_1_0_backward_gpu.cu.cc:31-32 | Each coordinate `blockDim * blockIdx + threadIdx` below grid * blockDim comes from exactly one (blockIdx, threadIdx) pair. |
| Layout.OffsetsFitInt32 | lib/ligru_1_0_backward_gpu.cu.cc:312-315 | When 3*T*N*H fits in 32 bits, every driver offset and kernel slot fits the source's `int`, so the unbounded arithmetic agrees with the source's. |
| Layout.StepOffsets | lib/ligru_2_0_forward_gpu.cu.cc:298-303 | The offsets `i*NH`, `i*NH*2` and `i*NH*3` start row i of the one-, two- and three-gate buffers. |
| Blas.GemmColumn | lib/ligru_1_0_backward_gpu.cu.cc:285-287 | Row i of a result column is entry (i, j) of the gemm. |
| Blas.Gemm | lib/ligru_2_0_forward_gpu.cu.cc:244-246 | The gemm result has C's size; its entries are given by GemmEntry and GemmAt. |
| Blas.GemmEntry | lib/ligru_2_0_forward_gpu.cu.cc:244-246 | Slot i + j*ldc of the result is entry (i, j). |
| Blas.GemmAt | lib/ligru_1_0_backward_gpu.cu.cc:285-287 | Entry (i, j) is alpha times row i of op(A) dotted with column j of op(B), plus beta times the old entry. Beta 0 ignores the old entry and beta 1 accumulates into it. Rows past m are untouched. |
| Blas.GemmOverwrites | lib/ligru_2_0_forward_gpu.cu.cc:233-246 | With beta 0 and ldc == m, the result does not depend on C's old contents. |
| Blas.GemmInto | lib/ligru_1_0_backward_gpu.cu.cc:321-324 | The in-place gemm replaces C's n*ldc values at the offset by Gemm of their old contents. Everything else in C is unchanged. |
| GradientKernel.GroupingsAgree | lib/ligru_2_0_backward_gpu.cu.cc:52-55 | The normalised kernel's d_a, d_z and dh_prev equal the plain kernel's (`lib/ligru_1_0_backward_gpu.cu.cc:50-54`) in exact arithmetic. |
| GradientKernel.DwxRow | lib/ligru_1_0_backward_gpu.cu.cc:37-58 | The dwx slice a launch leaves has 2 gate gradients per hidden unit and batch element (N*2H values). `RowsAt` states which thread's d_a and d_z sit at each slot, and `Launch` states that the launch writes exactly this slice. |
| GradientKernel.DhRow | lib/ligru_1_0_backward_gpu.cu.cc:37-54 | The dh_prev buffer a launch leaves has N*H values. `RowsAt` states that each thread's slot holds its state gradient `dh * z` (`GradientAtSlots`), and `Launch` states that the launch leaves exactly this buffer. |
| GradientKernel.GradientAtSlots | lib/ligru_1_0_backward_gpu.cu.cc:37-52 | A thread's gradients come from its own slots: dh = grad_out + dh_prev at `col*H + row`, and z, a and hcand at `col*3H + row` plus H, 0 and 2H. |
| GradientKernel.RowsAt | lib/ligru_1_0_backward_gpu.cu.cc:54-58 | In the step's results, a thread's d_a is at `col*2H + row`, its d_z is H further on, and its dh_prev is at `col*H + row`. |
| GradientKernel.GradientAtLocal | lib/ligru_1_0_backward_gpu.cu.cc:39-54 | A thread's result depends on dh_prev only at its own cell, so the other threads' writes to dh_prev do not change it. |
| GradientKernel.ThreadGradient | lib/ligru_1_0_backward_gpu.cu.cc:37-53 | The loads and arithmetic of an in-range thread compute its GradientAt. |
| GradientKernel.WriteGates | lib/ligru_1_0_backward_gpu.cu.cc:56-58 | dwx gains d_z at base + H, then d_a at base. |
| GradientKernel.InRangeThread | lib/ligru_1_0_backward_gpu.cu.cc:37-58 | An in-range thread writes exactly its dh_prev cell and its two dwx slots, with the values of its GradientAt. |
| GradientKernel.PointwiseOperations | lib/ligru_1_0_backward_gpu.cu.cc:26-59 | A thread outside the H x N range changes nothing. An in-range thread does what InRangeThread states. |
| GradientKernel.ThreadStep | lib/ligru_1_0_backward_gpu.cu.cc:26-59 | Running the threads before (col, row) and then (col, row) fills the DwxRow and DhRow slots up to (col, row). Everything else is left as it was. |
| GradientKernel.LaunchColumn | lib/ligru_1_0_backward_gpu.cu.cc:267-268 | The threads of one grid column fill that batch element's slots. |
| GradientKernel.Launch | lib/ligru_1_0_backward_gpu.cu.cc:262-268 | After a launch, dwx's slice is DwxRow and dh_prev's slice is DhRow of the launch's inputs. The rest of both buffers is unchanged. |
| BackwardRecurrence.Dispatch | lib/ligru_1_0_backward_gpu.cu.cc:266-282 | Codes 0..3 launch their kernel; any other code leaves dh and dwx unchanged. |
| BackwardRecurrence.Fed | lib/ligru_2_0_backward_gpu.cu.cc:251 | What the dh GEMM is fed has the width of dwx's row: the row itself in the plain pass (`lib/ligru_1_0_backward_gpu.cu.cc:286`), and in the normalised pass `RunPartial`'s layer norm of it, which tmp_dwx holds. |
| BackwardRecurrence.KernelDwx | lib/ligru_1_0_backward_gpu.cu.cc:266-282 | dwx's row after the selected kernel (DwxRow), or the row unchanged when the code selects no kernel. It keeps the row's N*2H width; `Dispatch` states that the launch leaves exactly this. |
| BackwardRecurrence.KernelDh | lib/ligru_1_0_backward_gpu.cu.cc:266-282 | dh after the selected kernel (DhRow), or dh unchanged when the code selects no kernel. It keeps dh's N*H width; `Dispatch` states that the launch leaves exactly this. |
| BackwardRecurrence.DhGemm | lib/ligru_1_0_backward_gpu.cu.cc:285-287 | The dh GEMM `gemm(N, N, H, N, 2H, 1, u_t, H, g, 2H, 1, dh, H)` keeps dh's N*H size. `DhGemmAt` gives its entries, and with H == 0 it leaves dh as it was. |
| BackwardRecurrence.DhGemmAt | lib/ligru_1_0_backward_gpu.cu.cc:285-287 | The dh gemm adds, to each thread's dh cell, row `row` of u_t dotted with its batch element's 2H gate gradients. |
| BackwardRecurrence.DhGemmInto | lib/ligru_1_0_backward_gpu.cu.cc:284-287 | dh's first N*H values become DhGemm of the fed gate gradients; everything else is unchanged. |
| BackwardRecurrence.DuGemm | lib/ligru_1_0_backward_gpu.cu.cc:321-324 | du keeps its 2H x H size; its entries are given by DuGemmAt and DuTerms. |
| BackwardRecurrence.DuGemmAt | lib/ligru_1_0_backward_gpu.cu.cc:321-324 | du entry (i, j) gains the sum, over all N*T columns q, of g's row i times h's row j. |
| BackwardRecurrence.DuTerms | lib/ligru_1_0_backward_gpu.cu.cc:321-324 | Term q of that sum reads `g[i + q*2H]` and `h[j + q*H]`. |
| BackwardRecurrence.DuGemmInto | lib/ligru_2_0_backward_gpu.cu.cc:290-294 | du's 2H*H values become DuGemm of the step rows; everything else is unchanged. |
| BackwardRecurrence.RunWidths | lib/ligru_1_0_backward_gpu.cu.cc:321-324 | The du gemm's N*T columns of 2H and of H values are the T step rows of dwx and of h. |
| BackwardRecurrence.Iterate | lib/ligru_1_0_backward_gpu.cu.cc:250-290 | One IterateInternal on values keeps both buffers' sizes. |
| BackwardRecurrence.IterateInOrder | lib/ligru_1_0_backward_gpu.cu.cc:266-287 | The source's order gives Iterate. First the kernel writes dwx's row and dh. Then the dh gemm is fed the new row (or, in the normalised pass, its layer norm) and reads dh as the kernel left it. |
| BackwardRecurrence.IterateReads | lib/ligru_1_0_backward_gpu.cu.cc:266-287 | Iterate reads only dh's first N*H values and dwx's row: its dh is StepDh of those values and its dwx row is KernelDwx of them. |
| BackwardRecurrence.StepDh | lib/ligru_1_0_backward_gpu.cu.cc:266-287 | The dh after one IterateInternal keeps dh's N*H width. It is the dh GEMM applied to the kernel's dh and to what the pass feeds from the kernel's dwx row; `IterateReads` states that Iterate's dh is this value spliced into dh, and `Dh` is this value at every step. |
| BackwardRecurrence.Step | lib/ligru_1_0_backward_gpu.cu.cc:313-315 | Iteration i reads h's row i, v's row i, grad_out's row i + 1 and dwx's row i, and keeps the buffers' sizes. |
| BackwardRecurrence.StepIsIterate | lib/ligru_1_0_backward_gpu.cu.cc:314-315 | The driver's pointers for step i hand IterateInternal exactly the rows Step i reads. |
| BackwardRecurrence.Dh | lib/ligru_1_0_backward_gpu.cu.cc:313-316 | The reference dh after steps T-1..i is one step of N*H values. Dh(T) is dh's initial contents. |
| BackwardRecurrence.Dwx | lib/ligru_1_0_backward_gpu.cu.cc:313-316 | The reference row i of dwx after step i has N*2H values. It is the kernel's gate gradients from Dh(i + 1), h's row i, v's row i and grad_out's row i + 1. `StepWrites` and `ProgressStep` state that the loop writes it into row i. |
| BackwardRecurrence.StepWrites | lib/ligru_1_0_backward_gpu.cu.cc:313-316 | Reading Dh(i+1) and dwx's initial row i, step i writes Dwx(i) into row i and Dh(i) into dh. |
| BackwardRecurrence.ProgressAtStart | lib/ligru_1_0_backward_gpu.cu.cc:313 | Before the loop, the buffers are in Progress at T. |
| BackwardRecurrence.ProgressStep | lib/ligru_1_0_backward_gpu.cu.cc:313-316 | One more iteration takes Progress from i + 1 to i. Progress means dh holds Dh(i), dwx's rows i..T-1 hold Dwx(t), and every other value is as it was. |
| BackwardRecurrence.FedStep | lib/ligru_2_0_backward_gpu.cu.cc:283-286 | In the normalised pass, tmp_dwx's rows i..T-1 hold the layer norm of Dwx(t), and the rest is as it was. |
| PlainBackward.BackwardPass.constructor | lib/ligru_1_0_backward_gpu.cu.cc:216-232 | The pass records batch size, input size, hidden size and activation code. |
| PlainBackward.BackwardPass.IterateInternal | lib/ligru_1_0_backward_gpu.cu.cc:250-290 | dh and dwx end as Iterate of the plain pass on the step's inputs. |
| PlainBackward.BackwardPass.RunStepBuffers | lib/ligru_1_0_backward_gpu.cu.cc:312-315 | Run's pointers for step i satisfy IterateInternal's requirements and are the starts of row i (row i + 1 of grad_out). |
| PlainBackward.BackwardPass.StepAt | lib/ligru_1_0_backward_gpu.cu.cc:314-315 | IterateInternal at step i's offsets is Step i. |
| PlainBackward.BackwardPass.RunStep | lib/ligru_1_0_backward_gpu.cu.cc:312-316 | With the offsets `i*NH`, `i*NH*3`, `(i+1)*NH` and `i*NH*2`, one loop iteration is Step i. |
| PlainBackward.BackwardPass.Iteration | lib/ligru_1_0_backward_gpu.cu.cc:313-316 | One loop iteration extends Progress down to step i. |
| PlainBackward.BackwardPass.Steps | lib/ligru_1_0_backward_gpu.cu.cc:312-316 | The descending loop leaves the buffers in Progress at step 0. |
| PlainBackward.BackwardPass.Run | lib/ligru_1_0_backward_gpu.cu.cc:292-327 | dh ends as Dh(0), and dwx's rows hold Dwx(t) with everything else unchanged. du gains DuGemm of dwx and h. |
| NormBackward.BackwardPass.constructor | lib/ligru_2_0_backward_gpu.cu.cc:181-196 | The pass records batch size, input size, hidden size and activation code. |
| NormBackward.BackwardPass.IterateInternal | lib/ligru_2_0_backward_gpu.cu.cc:214-260 | dh and dwx end as Iterate of the normalised pass. tmp_dwx's row becomes the layer norm of the new dwx row; nothing else in tmp_dwx changes. |
| NormBackward.BackwardPass.RunStepBuffers | lib/ligru_2_0_backward_gpu.cu.cc:282-285 | Run's pointers for step i satisfy IterateInternal's requirements and are the starts of row i. |
| NormBackward.BackwardPass.StepAt | lib/ligru_2_0_backward_gpu.cu.cc:284-285 | IterateInternal at step i's offsets is Step i on dh and dwx, and writes tmp_dwx's row i. |
| NormBackward.BackwardPass.RunStep | lib/ligru_2_0_backward_gpu.cu.cc:282-286 | One loop iteration at the driver's offsets is Step i and writes tmp_dwx's row i. |
| NormBackward.BackwardPass.Iteration | lib/ligru_2_0_backward_gpu.cu.cc:283-286 | One loop iteration extends Progress and FedProgress down to step i. |
| NormBackward.BackwardPass.Steps | lib/ligru_2_0_backward_gpu.cu.cc:282-286 | The descending loop leaves dh and dwx in Progress, and tmp_dwx in FedProgress, at step 0. |
| NormBackward.BackwardPass.Run | lib/ligru_2_0_backward_gpu.cu.cc:262-296 | dh ends as Dh(0), dwx's rows as Dwx(t) and tmp_dwx's rows as their layer norm. du gains DuGemm of tmp_dwx and h. |
| NormForward.BlendInterpolates | lib/ligru_2_0_forward_gpu.cu.cc:62-64 | The blend keeps the state when z = 1 and takes the candidate when z = 0. For z in [0, 1] it lies between the two. |
| NormForward.CellAtSlots | lib/ligru_2_0_forward_gpu.cu.cc:39-53 | A thread's cell comes from wx and uh at `col*2H + row` (candidate) and that plus H (update), and from h at `col*H + row`. |
| NormForward.HOutRow | lib/ligru_2_0_forward_gpu.cu.cc:62-64 | The h_out slice a launch leaves has N*H values. `RowsAt` states that each thread's slot `col*H + row` holds its blended state, and `Launch` states that the launch writes exactly this slice. |
| NormForward.SaveRow | lib/ligru_2_0_forward_gpu.cu.cc:55-60 | The v slice a training launch leaves has N*3H values. `RowsAt` states that each thread's a, z and hcand sit at +0, +H and +2H of `col*3H + row`. |
| NormForward.RowsAt | lib/ligru_2_0_forward_gpu.cu.cc:55-64 | A thread's new state is at `col*H + row` of h_out. Its saved a, z and hcand are at `col*3H + row` plus 0, H and 2H. |
| NormForward.ThreadCell | lib/ligru_2_0_forward_gpu.cu.cc:39-53 | The loads and arithmetic of an in-range thread compute its CellAt, whose state is the blend of z, h and hcand. |
| NormForward.SaveGates | lib/ligru_2_0_forward_gpu.cu.cc:55-60 | v gains z at base + H, a at base and hcand at base + 2H. |
| NormForward.WriteState | lib/ligru_2_0_forward_gpu.cu.cc:62-64 | h_out gains `z * h + (1 - z) * hcand` at the thread's cell. |
| NormForward.InRangeThread | lib/ligru_2_0_forward_gpu.cu.cc:39-64 | In training, an in-range thread writes its three v slots; in every mode it writes its h_out cell; nothing else changes. |
| NormForward.PointwiseOperations | lib/ligru_2_0_forward_gpu.cu.cc:29-65 | An out-of-range thread changes nothing. An in-range thread does what InRangeThread states. |
| NormForward.ThreadStep | lib/ligru_2_0_forward_gpu.cu.cc:29-65 | Running the threads up to (col, row) fills the HOutRow and SaveRow slots up to (col, row), and v is untouched in inference. |
| NormForward.LaunchColumn | lib/ligru_2_0_forward_gpu.cu.cc:258-259 | The threads of one grid column fill that batch element's slots. |
| NormForward.Launch | lib/ligru_2_0_forward_gpu.cu.cc:250-259 | h_out's slice becomes HOutRow. In training v's slice becomes SaveRow. Nothing else changes, even when h_out is h one step further on. |
| NormForward.UnwrittenSliceKept | lib/ligru_2_0_forward_gpu.cu.cc:301 | Writing h_out = h + (i+1)*NH leaves the disjoint slice h + i*NH that the launch reads unchanged. |
| NormForward.UhRowEntry | lib/ligru_2_0_forward_gpu.cu.cc:244-246 | Row i of column col of tmp_uh is row i of U dotted with batch element col's state. |
| NormForward.UhRowAt | lib/ligru_2_0_forward_gpu.cu.cc:244-246 | Gate g of thread (col, row) in tmp_uh is row g*H + row of U dotted with the state of batch element col. |
| NormForward.UhRow | lib/ligru_2_0_forward_gpu.cu.cc:244-246 | The product `gemm(N, N, 2H, N, H, 1, u, 2H, h, H, 0, tmp_uh, 2H)` has N*2H values. `UhRowEntry` and `UhRowAt` give its entries, `GemmOverwrites` states that the old tmp_uh does not matter, and with H == 0 it is empty. |
| NormForward.RecurrentGemm | lib/ligru_2_0_forward_gpu.cu.cc:243-246 | tmp_uh's step slice becomes UhRow of the state slice; nothing else in it changes. |
| NormForward.ProjectAndNormalise | lib/ligru_2_0_forward_gpu.cu.cc:243-247 | After the gemm and `RunPartial`, tmp_uh's slice holds U h, and tmp_uh_norm's first 2NH values hold its layer norm at this step. |
| NormForward.Dispatch | lib/ligru_2_0_forward_gpu.cu.cc:256-281 | The kernel ForwardKernelFor selects writes h_out and, in training, v. A code that selects none leaves both unchanged. |
| NormForward.KernelH | lib/ligru_2_0_forward_gpu.cu.cc:256-281 | h_out after the kernel ForwardKernelFor selects (HOutRow spliced at h_out's offset), or h_out unchanged when none is selected. It keeps h_out's length; `Dispatch` states that the launch leaves exactly this. |
| NormForward.KernelV | lib/ligru_2_0_forward_gpu.cu.cc:256-281 | v after the selected kernel: SaveRow spliced at v's offset in training, and v unchanged in inference or when no kernel is selected. It keeps v's length; `Dispatch` states that the launch leaves exactly this. |
| NormForward.State | lib/ligru_2_0_forward_gpu.cu.cc:300-304 | The reference state after t steps is one step of N*H values. State(0) is h[0]. |
| NormForward.StateNext | lib/ligru_2_0_forward_gpu.cu.cc:301-303 | When a kernel runs, State(i+1) is HOutRow of wx's row i, the normalised U State(i), and State(i). |
| NormForward.Step | lib/ligru_2_0_forward_gpu.cu.cc:300-303 | Iteration i of Run reads h's row i and wx's row i and writes h's row i + 1, v's row i and tmp_uh's row i. It keeps the run's buffer sizes (RunFits). `StepState`, `StepUh`, `StepSaved` and `StepNormed` state what it leaves in each buffer. |
| NormForward.TrainingKeepsStates | lib/ligru_2_0_forward_gpu.cu.cc:256-281 | For every activation inference supports, training and inference compute the same states; the flag only decides whether v is written. |
| NormForward.StepState | lib/ligru_2_0_forward_gpu.cu.cc:300-304 | When h's row i is State(i), step i writes State(i+1) into row i + 1 and leaves the other values; with no kernel, h is unchanged. |
| NormForward.StepUh | lib/ligru_2_0_forward_gpu.cu.cc:302 | Step i writes Uh(i) into tmp_uh's row i. |
| NormForward.StepSaved | lib/ligru_2_0_forward_gpu.cu.cc:301-302 | Step i writes what its kernel saved into v's row i when a kernel runs in training, and leaves v unchanged otherwise. |
| NormForward.StepNormed | lib/ligru_2_0_forward_gpu.cu.cc:247 | Step i leaves Normed(i) in tmp_uh_norm. |
| NormForward.ProgressAtStart | lib/ligru_2_0_forward_gpu.cu.cc:300 | Before the loop, the buffers are in Progress after 0 steps. |
| NormForward.ProgressStep | lib/ligru_2_0_forward_gpu.cu.cc:300-304 | One more iteration takes Progress from i to i + 1 steps. |
| NormForward.ForwardPass.constructor | lib/ligru_2_0_forward_gpu.cu.cc:195-211 | The pass records training flag, batch size, input size, hidden size and activation code. |
| NormForward.ForwardPass.IterateInternal | lib/ligru_2_0_forward_gpu.cu.cc:229-282 | h_out, tmp_uh, v and tmp_uh_norm end as IterateOut of the step's state slice and tmp_wx slice. |
| NormForward.IterateOut | lib/ligru_2_0_forward_gpu.cu.cc:229-282 | One IterateInternal on values keeps all four buffers' lengths. h_out and v are KernelH and KernelV of the normalised product, tmp_uh's slice is UhRow, and tmp_uh_norm's head is its layer norm; `ForwardPass.IterateInternal` states that the method leaves exactly this. |
| NormForward.ForwardPass.RunStepBuffers | lib/ligru_2_0_forward_gpu.cu.cc:300-303 | Run's pointers for step i satisfy IterateInternal's requirements, with h_out the next row of h. |
| NormForward.ForwardPass.StepIsIterate | lib/ligru_2_0_forward_gpu.cu.cc:301-303 | The driver's pointers for step i hand IterateInternal exactly the rows Step i reads and writes. |
| NormForward.ForwardPass.StepAt | lib/ligru_2_0_forward_gpu.cu.cc:301-303 | IterateInternal at step i's offsets is Step i. |
| NormForward.ForwardPass.RunStep | lib/ligru_2_0_forward_gpu.cu.cc:300-304 | One loop iteration at the offsets `i*NH`, `(i+1)*NH`, `i*NH*3` and `i*NH*2` is Step i. |
| NormForward.ForwardPass.Iteration | lib/ligru_2_0_forward_gpu.cu.cc:300-304 | One loop iteration keeps the buffers in Progress. |
| NormForward.ForwardPass.Run | lib/ligru_2_0_forward_gpu.cu.cc:284-307 | h[0] is untouched and h[t] is State(t) for every t up to seq_length. tmp_uh's rows hold U h[t]. v's rows hold the saved gates in training and are untouched otherwise. tmp_uh_norm holds the last normalised product. Every other value is as it was. |

## Left out

- Streams and events are left out (`cudaStreamCreate`, `cudaEventRecord`, `cudaStreamWaitEvent`, the sync stream and the destructor's synchronisation). Each pass issues its work on streams ordered by events, and the model runs the calls one after another in source order, which the events allow. Only a backward pass's du GEMM may overlap its dh GEMMs. In the normalised pass, du waits for the event recorded before the last dh GEMM (`lib/ligru_2_0_backward_gpu.cu.cc:255`), so it may overlap that one. In the plain pass with a code in 0..3, du waits for the event recorded after the last kernel launch (`lib/ligru_1_0_backward_gpu.cu.cc:281`), so it may overlap the last dh GEMM. With a code outside 0..3, the plain pass never records the event (`lib/ligru_1_0_backward_gpu.cu.cc:266-282`), so the wait at `lib/ligru_1_0_backward_gpu.cu.cc:318` waits for nothing and du may overlap every dh GEMM of the loop. The result is the same in every case: du writes only du, each dh GEMM writes only dh, and with no kernel selected nothing writes dwx.
- The layer-normalisation sub-kernels (`layer_norm::ForwardPass/BackwardPass::RunPartial`) are uninterpreted. They are the length-preserving, step-indexed function `Primitives.NormFn`. Their statistics, gamma/beta and their gradients are not part of this model.
- The activations, their derivatives and sigmoid are uninterpreted (`Primitives.Pointwise`), so no property depends on their formulas.
- Floating point (`float`, `double`, `half`) is modelled as `real`. Rounding is not modelled, so `GradientKernel.GroupingsAgree` holds only in exact arithmetic.
- The FP16 kernel stubs for compute capability below 7.0 (`lib/ligru_1_0_backward_gpu.cu.cc:166-197`) are left out; they only call `device_assert_fail`.
- 32-bit `int` overflow of offsets and indices is not modelled; integers are unbounded. `Layout.OffsetsFitInt32` states the bound (3*T*N*H within INT32_MAX) under which the source's `int` arithmetic agrees with the model. The drivers' requires do not impose that bound.
- cuBLAS handles, `cublasSetStream`/`cublasGetStream`, pointer mode, tensor-core mode and cuBLAS status codes are left out.
- With hidden size 0, cuBLAS rejects the leading dimension 0 and writes nothing. The model's GEMMs leave their output unchanged in that case.
- The backward drivers' `wx_t` argument is dropped, because the source never reads it (`lib/ligru_1_0_backward_gpu.cu.cc:293`, `lib/ligru_2_0_backward_gpu.cu.cc:263`). The `input_size` field is recorded and never read, as in the source.
- The framework glue (`frameworks/pytorch/ligru.cc`) is not part of this model. It allocates the buffers, and the drivers' `RunBuffers` states what it must provide.
- Aliasing is modelled only as far as the source relies on it: the forward pass's h and h_out are the same buffer at disjoint offsets. Every other pair of written buffers is required to be distinct.
- A kernel launch runs its threads in one sequential order (column by column). Other schedules give the same result because the threads' writes are disjoint (`Layout.IndexInjective`), but no lemma quantifies over schedules.
