/**
 * The forward pass of the normalised Li-GRU cell (ligru_2_0): for every time
 * step t, the recurrent product U h[t] is normalised by the layer-norm
 * sub-kernel and combined with the precomputed input projection wx[t]:
 *
 *   z     = sigmoid(wx_z + uh_z)        update gate
 *   a     = wx_a + uh_a                 candidate pre-activation
 *   hcand = act(a)
 *   h[t+1] = z * h[t] + (1 - z) * hcand
 *
 * and, when training, (a, z, hcand) are saved for the backward pass.
 */
module NormForward {
  import opened Layout
  import opened Slices
  import opened Primitives
  import opened Blas

  /** The values one thread computes: the three it saves and the new state. */
  datatype Cell = Cell(a: real, z: real, hcand: real, h: real)

  /** The blend of the previous state and the candidate by the update gate. */
  function Blend(z: real, hPrev: real, hcand: real): real
  {
    z * hPrev + (1.0 - z) * hcand
  }

  /** One thread's arithmetic, from its two input projections, two recurrent terms and its state. */
  function ForwardCell(p: Pointwise, act: Activation, wxA: real, wxZ: real, uhA: real, uhZ: real, hPrev: real): Cell
  {
    var z := Sigmoid(p, wxZ + uhZ);
    var a := wxA + uhA;
    var hcand := Act(p, act, a);
    Cell(a, z, hcand, Blend(z, hPrev, hcand))
  }

  /**
   * The update gate interpolates: a gate of 1 keeps the state, a gate of 0
   * replaces it by the candidate, and a gate in [0, 1] (the range of a sigmoid)
   * yields a value between the two.
   */
  lemma {:induction false} BlendInterpolates(z: real, hPrev: real, hcand: real)
    ensures z == 1.0 ==> Blend(z, hPrev, hcand) == hPrev
    ensures z == 0.0 ==> Blend(z, hPrev, hcand) == hcand
    ensures 0.0 <= z <= 1.0 && hPrev <= hcand ==> hPrev <= Blend(z, hPrev, hcand) <= hcand
    ensures 0.0 <= z <= 1.0 && hcand <= hPrev ==> hcand <= Blend(z, hPrev, hcand) <= hPrev
  {
    var d := hPrev - hcand;
    assert Blend(z, hPrev, hcand) == hcand + z * d;
    if 0.0 <= z <= 1.0 {
      ProductBounds(z, d);
      if d <= 0.0 {
        assert d <= z * d <= 0.0;
      } else {
        assert 0.0 <= z * d <= d;
      }
    }
  }

  /** A factor z in [0, 1] scales d to a value between 0 and d. */
  lemma {:induction false} ProductBounds(z: real, d: real)
    requires 0.0 <= z <= 1.0
    ensures 0.0 <= d ==> 0.0 <= z * d <= d
    ensures d <= 0.0 ==> d <= z * d <= 0.0
  {
    if 0.0 <= d {
      MulNonNegative(z, d);
      MulNonNegative(1.0 - z, d);
    } else {
      MulNonNegative(z, -d);
      MulNonNegative(1.0 - z, -d);
    }
  }

  lemma {:induction false} MulNonNegative(x: real, y: real)
    requires 0.0 <= x && 0.0 <= y
    ensures 0.0 <= x * y
  {
  }

  /** The values behind the kernel's wx, uh and h pointers for one step. */
  predicate StepInputs(N: nat, H: nat, wx: seq<real>, uh: seq<real>, h: seq<real>)
  {
    |wx| == Size(2, N, H) && |uh| == Size(2, N, H) && |h| == Size(1, N, H)
  }

  /** What thread (col, row) computes. */
  function CellAt(p: Pointwise, act: Activation, N: nat, H: nat, wx: seq<real>, uh: seq<real>, h: seq<real>,
                  col: nat, row: nat): Cell
    requires StepInputs(N, H, wx, uh, h) && col < N && row < H
  {
    IndexBounds(1, N, H);
    IndexBounds(2, N, H);
    var aIdx := Index(2, H, Thread(col, row), CANDIDATE);
    var zIdx := Index(2, H, Thread(col, row), UPDATE);
    ForwardCell(p, act, wx[aIdx], wx[zIdx], uh[aIdx], uh[zIdx], h[Index(1, H, Thread(col, row), 0)])
  }

  /** The step's h_out once every thread has run. */
  function HOutRow(p: Pointwise, act: Activation, N: nat, H: nat, wx: seq<real>, uh: seq<real>, h: seq<real>): (r: seq<real>)
    requires StepInputs(N, H, wx, uh, h)
    ensures |r| == Size(1, N, H)
  {
    Tabulate(1, N, H, (col: nat, row: nat, g: nat) =>
      if col < N && row < H then CellAt(p, act, N, H, wx, uh, h, col, row).h else 0.0)
  }

  /** The step's slice of the save buffer v once every thread has run in training. */
  function SaveRow(p: Pointwise, act: Activation, N: nat, H: nat, wx: seq<real>, uh: seq<real>, h: seq<real>): (r: seq<real>)
    requires StepInputs(N, H, wx, uh, h)
    ensures |r| == Size(3, N, H)
  {
    Tabulate(3, N, H, (col: nat, row: nat, g: nat) =>
      if col < N && row < H then
        var c := CellAt(p, act, N, H, wx, uh, h, col, row);
        if g == SAVED_A then c.a else if g == SAVED_Z then c.z else c.hcand
      else 0.0)
  }

  /** The step's results seen from thread (col, row): its new state and its three saved values. */
  lemma {:induction false} RowsAt(p: Pointwise, act: Activation, N: nat, H: nat, wx: seq<real>, uh: seq<real>, h: seq<real>, col: nat, row: nat)
    requires StepInputs(N, H, wx, uh, h) && col < N && row < H
    ensures Index(1, H, Thread(col, row), 0) < Size(1, N, H)
    ensures Index(3, H, Thread(col, row), SAVED_A) < Size(3, N, H) && Index(3, H, Thread(col, row), SAVED_Z) < Size(3, N, H)
    ensures Index(3, H, Thread(col, row), SAVED_HCAND) < Size(3, N, H)
    ensures HOutRow(p, act, N, H, wx, uh, h)[Index(1, H, Thread(col, row), 0)] == CellAt(p, act, N, H, wx, uh, h, col, row).h
    ensures SaveRow(p, act, N, H, wx, uh, h)[Index(3, H, Thread(col, row), SAVED_A)] == CellAt(p, act, N, H, wx, uh, h, col, row).a
    ensures SaveRow(p, act, N, H, wx, uh, h)[Index(3, H, Thread(col, row), SAVED_Z)] == CellAt(p, act, N, H, wx, uh, h, col, row).z
    ensures SaveRow(p, act, N, H, wx, uh, h)[Index(3, H, Thread(col, row), SAVED_HCAND)]
            == CellAt(p, act, N, H, wx, uh, h, col, row).hcand
  {
    var fh := (col: nat, row: nat, g: nat) =>
      if col < N && row < H then CellAt(p, act, N, H, wx, uh, h, col, row).h else 0.0;
    var fv := (col: nat, row: nat, g: nat) =>
      if col < N && row < H then
        var c := CellAt(p, act, N, H, wx, uh, h, col, row);
        if g == SAVED_A then c.a else if g == SAVED_Z then c.z else c.hcand
      else 0.0;
    TabulateAt(1, N, H, fh, col, row, 0);
    TabulateAt(3, N, H, fv, col, row, SAVED_A);
    TabulateAt(3, N, H, fv, col, row, SAVED_Z);
    TabulateAt(3, N, H, fv, col, row, SAVED_HCAND);
  }

  /** CellAt on the step's slices, in terms of the thread's own slots of the whole buffers. */
  lemma {:induction false} CellAtSlots(p: Pointwise, act: Activation, N: nat, H: nat, wx: seq<real>, wxOff: nat,
                                       uh: seq<real>, uhOff: nat, h: seq<real>, hOff: nat, col: nat, row: nat)
    requires wxOff + Size(2, N, H) <= |wx| && uhOff + Size(2, N, H) <= |uh| && hOff + Size(1, N, H) <= |h|
    requires col < N && row < H
    ensures Index(2, H, Thread(col, row), CANDIDATE) < Size(2, N, H) && Index(2, H, Thread(col, row), UPDATE) < Size(2, N, H)
    ensures Index(1, H, Thread(col, row), 0) < Size(1, N, H)
    ensures var aIdx, zIdx := Index(2, H, Thread(col, row), CANDIDATE), Index(2, H, Thread(col, row), UPDATE);
      CellAt(p, act, N, H, wx[wxOff..wxOff + Size(2, N, H)], uh[uhOff..uhOff + Size(2, N, H)], h[hOff..hOff + Size(1, N, H)], col, row)
      == ForwardCell(p, act, wx[wxOff + aIdx], wx[wxOff + zIdx], uh[uhOff + aIdx], uh[uhOff + zIdx],
                     h[hOff + Index(1, H, Thread(col, row), 0)])
  {
    IndexBound(2, N, H, col, row, CANDIDATE);
    IndexBound(2, N, H, col, row, UPDATE);
    IndexBound(1, N, H, col, row, 0);
  }

  /**
   * The pointers a launch receives. h_out may lie in the same buffer as h (the
   * driver passes h + i*NH and h + (i+1)*NH) as long as the two slices do not
   * overlap; v must hold a step's worth of values only when training.
   */
  predicate KernelBuffers(training: bool, N: nat, H: nat, wx: array<real>, wxOff: nat, uh: array<real>, uhOff: nat,
                          h: array<real>, hOff: nat, hOut: array<real>, hOutOff: nat, v: array<real>, vOff: nat)
  {
    wxOff + Size(2, N, H) <= wx.Length && uhOff + Size(2, N, H) <= uh.Length &&
    hOff + Size(1, N, H) <= h.Length && hOutOff + Size(1, N, H) <= hOut.Length &&
    (training ==> vOff + Size(3, N, H) <= v.Length) &&
    (h == hOut ==> hOff + Size(1, N, H) <= hOutOff || hOutOff + Size(1, N, H) <= hOff) &&
    wx != hOut && uh != hOut && wx != v && uh != v && h != v && hOut != v
  }

  /**
   * The body of one thread. An out-of-range thread returns at once. An in-range
   * thread, when training, saves z, a and hcand (in that order) at its three
   * slots of v; it then writes its new state into h_out; nothing else changes.
   */
  method PointwiseOperations(training: bool, p: Pointwise, act: Activation, N: nat, H: nat, row: nat, col: nat,
                             wx: array<real>, wxOff: nat, uh: array<real>, uhOff: nat,
                             h: array<real>, hOff: nat, hOut: array<real>, hOutOff: nat, v: array<real>, vOff: nat)
    requires KernelBuffers(training, N, H, wx, wxOff, uh, uhOff, h, hOff, hOut, hOutOff, v, vOff)
    modifies hOut, v
    ensures row < H && col < N ==>
      Index(1, H, Thread(col, row), 0) < Size(1, N, H) && Index(3, H, Thread(col, row), SAVED_A) < Size(3, N, H) &&
      Index(3, H, Thread(col, row), SAVED_Z) < Size(3, N, H) && Index(3, H, Thread(col, row), SAVED_HCAND) < Size(3, N, H)
    ensures row < H && col < N ==>
      var c := CellAt(p, act, N, H, wx[wxOff..wxOff + Size(2, N, H)], uh[uhOff..uhOff + Size(2, N, H)],
                      old(h[hOff..hOff + Size(1, N, H)]), col, row);
      hOut[..] == old(hOut[..])[hOutOff + Index(1, H, Thread(col, row), 0) := c.h] &&
      v[..] == if training then old(v[..])[vOff + Index(3, H, Thread(col, row), SAVED_Z) := c.z]
                                          [vOff + Index(3, H, Thread(col, row), SAVED_A) := c.a]
                                          [vOff + Index(3, H, Thread(col, row), SAVED_HCAND) := c.hcand]
               else old(v[..])
    ensures !(row < H && col < N) ==> hOut[..] == old(hOut[..]) && v[..] == old(v[..])
  {
    if row >= H || col >= N {
      return;
    }
    InRangeThread(training, p, act, N, H, row, col, wx, wxOff, uh, uhOff, h, hOff, hOut, hOutOff, v, vOff);
  }

  /** What an in-range thread does: when training it saves its three gate values, then it writes its new state. */
  method InRangeThread(training: bool, p: Pointwise, act: Activation, N: nat, H: nat, row: nat, col: nat,
                       wx: array<real>, wxOff: nat, uh: array<real>, uhOff: nat,
                       h: array<real>, hOff: nat, hOut: array<real>, hOutOff: nat, v: array<real>, vOff: nat)
    requires KernelBuffers(training, N, H, wx, wxOff, uh, uhOff, h, hOff, hOut, hOutOff, v, vOff) && row < H && col < N
    modifies hOut, v
    ensures Index(1, H, Thread(col, row), 0) < Size(1, N, H) && Index(3, H, Thread(col, row), SAVED_A) < Size(3, N, H)
    ensures Index(3, H, Thread(col, row), SAVED_Z) < Size(3, N, H) && Index(3, H, Thread(col, row), SAVED_HCAND) < Size(3, N, H)
    ensures
      var c := CellAt(p, act, N, H, wx[wxOff..wxOff + Size(2, N, H)], uh[uhOff..uhOff + Size(2, N, H)],
                      old(h[hOff..hOff + Size(1, N, H)]), col, row);
      hOut[..] == old(hOut[..])[hOutOff + Index(1, H, Thread(col, row), 0) := c.h] &&
      v[..] == if training then old(v[..])[vOff + Index(3, H, Thread(col, row), SAVED_Z) := c.z]
                                          [vOff + Index(3, H, Thread(col, row), SAVED_A) := c.a]
                                          [vOff + Index(3, H, Thread(col, row), SAVED_HCAND) := c.hcand]
               else old(v[..])
  {
    ghost var wxs, uhs, hs := wx[wxOff..wxOff + Size(2, N, H)], uh[uhOff..uhOff + Size(2, N, H)], h[hOff..hOff + Size(1, N, H)];
    var c := ThreadCell(p, act, N, H, row, col, wx, wxOff, uh, uhOff, h, hOff);
    IndexBound(3, N, H, col, row, SAVED_A);
    IndexBound(3, N, H, col, row, SAVED_Z);
    IndexBound(3, N, H, col, row, SAVED_HCAND);
    var outputIdx := Index(1, H, Thread(col, row), 0);
    ghost var hPrev := h[hOff + outputIdx];
    if training {
      var baseVIdx := Index(3, H, Thread(col, row), 0);
      assert baseVIdx + 1 * H == Index(3, H, Thread(col, row), SAVED_Z) && baseVIdx + 0 * H == Index(3, H, Thread(col, row), SAVED_A);
      assert baseVIdx + 2 * H == Index(3, H, Thread(col, row), SAVED_HCAND);
      SaveGates(v, vOff + baseVIdx, H, c.z, c.a, c.hcand);
    }
    assert h[hOff + outputIdx] == hPrev;
    assert hOut[..] == old(hOut[..]);
    WriteState(hOut, hOutOff + outputIdx, c.z, h[hOff + outputIdx], c.hcand);
    assert wx[wxOff..wxOff + Size(2, N, H)] == wxs && uh[uhOff..uhOff + Size(2, N, H)] == uhs;
  }

  /** The cell an in-range thread computes, from the loads of its two gates and of its old state. */
  method ThreadCell(p: Pointwise, act: Activation, N: nat, H: nat, row: nat, col: nat,
                    wx: array<real>, wxOff: nat, uh: array<real>, uhOff: nat, h: array<real>, hOff: nat) returns (c: Cell)
    requires wxOff + Size(2, N, H) <= wx.Length && uhOff + Size(2, N, H) <= uh.Length && hOff + Size(1, N, H) <= h.Length
    requires row < H && col < N
    ensures Index(1, H, Thread(col, row), 0) < Size(1, N, H)
    ensures c == CellAt(p, act, N, H, wx[wxOff..wxOff + Size(2, N, H)], uh[uhOff..uhOff + Size(2, N, H)],
                        h[hOff..hOff + Size(1, N, H)], col, row)
    ensures c.h == Blend(c.z, h[hOff + Index(1, H, Thread(col, row), 0)], c.hcand)
  {
    CellAtSlots(p, act, N, H, wx[..], wxOff, uh[..], uhOff, h[..], hOff, col, row);
    var weightIdx := Index(2, H, Thread(col, row), 0);
    var outputIdx := Index(1, H, Thread(col, row), 0);
    var aIdx := weightIdx + 0 * H;
    var zIdx := weightIdx + 1 * H;
    assert aIdx == Index(2, H, Thread(col, row), CANDIDATE) && zIdx == Index(2, H, Thread(col, row), UPDATE);
    var z := Sigmoid(p, wx[wxOff + zIdx] + uh[uhOff + zIdx]);
    var a := wx[wxOff + aIdx] + uh[uhOff + aIdx];
    var hcand := Act(p, act, a);
    c := Cell(a, z, hcand, Blend(z, h[hOff + outputIdx], hcand));
  }

  /** The thread's new state, z h + (1 - z) hcand, written at position at. */
  method WriteState(hOut: array<real>, at: nat, z: real, hPrev: real, hcand: real)
    requires at < hOut.Length
    modifies hOut
    ensures hOut[..] == old(hOut[..])[at := Blend(z, hPrev, hcand)]
  {
    var curHValue := z * hPrev + (1.0 - z) * hcand;
    hOut[at] := curHValue;
  }

  /** A training thread's saves: z, then a, then hcand, one gate apart from base. */
  method SaveGates(v: array<real>, base: nat, H: nat, z: real, a: real, hcand: real)
    requires base + 2 * H < v.Length
    modifies v
    ensures v[..] == old(v[..])[base + 1 * H := z][base + 0 * H := a][base + 2 * H := hcand]
  {
    v[base + 1 * H] := z;
    v[base + 0 * H] := a;
    v[base + 2 * H] := hcand;
  }

  /**
   * One thread of the launch, on the buffers' values: from the progress after the
   * threads before (col, row), what PointwiseOperations does gives the progress
   * after (col, row).
   */
  lemma {:induction false} ThreadStep(training: bool, p: Pointwise, act: Activation, N: nat, H: nat,
                                      wxs: seq<real>, uhs: seq<real>, hs: seq<real>,
                                      ho: seq<real>, ho': seq<real>, ho0: seq<real>, hOutOff: nat,
                                      vs: seq<real>, vs': seq<real>, v0: seq<real>, vOff: nat, col: nat, row: nat)
    requires StepInputs(N, H, wxs, uhs, hs)
    requires Filled(1, N, H, ho, ho0, hOutOff, HOutRow(p, act, N, H, wxs, uhs, hs), col, row)
    requires training ==> Filled(3, N, H, vs, v0, vOff, SaveRow(p, act, N, H, wxs, uhs, hs), col, row)
    requires !training ==> vs == v0
    requires row < H && col < N ==>
      Index(1, H, Thread(col, row), 0) < Size(1, N, H) && Index(3, H, Thread(col, row), SAVED_A) < Size(3, N, H) &&
      Index(3, H, Thread(col, row), SAVED_Z) < Size(3, N, H) && Index(3, H, Thread(col, row), SAVED_HCAND) < Size(3, N, H)
    requires row < H && col < N ==>
      var c := CellAt(p, act, N, H, wxs, uhs, hs, col, row);
      ho' == ho[hOutOff + Index(1, H, Thread(col, row), 0) := c.h] &&
      vs' == if training then vs[vOff + Index(3, H, Thread(col, row), SAVED_Z) := c.z]
                                [vOff + Index(3, H, Thread(col, row), SAVED_A) := c.a]
                                [vOff + Index(3, H, Thread(col, row), SAVED_HCAND) := c.hcand]
             else vs
    requires !(row < H && col < N) ==> ho' == ho && vs' == vs
    ensures Filled(1, N, H, ho', ho0, hOutOff, HOutRow(p, act, N, H, wxs, uhs, hs), col, row + 1)
    ensures training ==> Filled(3, N, H, vs', v0, vOff, SaveRow(p, act, N, H, wxs, uhs, hs), col, row + 1)
    ensures !training ==> vs' == v0
  {
    var fullH, fullV := HOutRow(p, act, N, H, wxs, uhs, hs), SaveRow(p, act, N, H, wxs, uhs, hs);
    if row < H && col < N {
      RowsAt(p, act, N, H, wxs, uhs, hs, col, row);
      FilledAfterWrite1(N, H, ho, ho0, hOutOff, fullH, col, row);
      if training {
        FilledAfterWrite3(N, H, vs, v0, vOff, fullV, col, row);
      }
    } else {
      FilledSkip(1, N, H, ho, ho0, hOutOff, fullH, col, row);
      if training {
        FilledSkip(3, N, H, vs, v0, vOff, fullV, col, row);
      }
    }
  }

  /** The threads (col, 0), (col, 1), ... of one column of the grid, one after the other. */
  method LaunchColumn(training: bool, p: Pointwise, act: Activation, N: nat, H: nat,
                      wx: array<real>, wxOff: nat, uh: array<real>, uhOff: nat,
                      h: array<real>, hOff: nat, hOut: array<real>, hOutOff: nat, v: array<real>, vOff: nat, col: nat,
                      ghost wxs: seq<real>, ghost uhs: seq<real>, ghost hs: seq<real>, ghost hOut0: seq<real>, ghost v0: seq<real>)
    requires KernelBuffers(training, N, H, wx, wxOff, uh, uhOff, h, hOff, hOut, hOutOff, v, vOff)
    requires wxs == wx[wxOff..wxOff + Size(2, N, H)] && uhs == uh[uhOff..uhOff + Size(2, N, H)]
    requires StepInputs(N, H, wxs, uhs, hs) && h[hOff..hOff + Size(1, N, H)] == hs
    requires |hOut0| == hOut.Length && (h == hOut ==> hOut0[hOff..hOff + Size(1, N, H)] == hs)
    requires Filled(1, N, H, hOut[..], hOut0, hOutOff, HOutRow(p, act, N, H, wxs, uhs, hs), col, 0)
    requires training ==> Filled(3, N, H, v[..], v0, vOff, SaveRow(p, act, N, H, wxs, uhs, hs), col, 0)
    requires !training ==> v[..] == v0
    modifies hOut, v
    ensures Filled(1, N, H, hOut[..], hOut0, hOutOff, HOutRow(p, act, N, H, wxs, uhs, hs), col + 1, 0)
    ensures training ==> Filled(3, N, H, v[..], v0, vOff, SaveRow(p, act, N, H, wxs, uhs, hs), col + 1, 0)
    ensures !training ==> v[..] == v0
    ensures h[hOff..hOff + Size(1, N, H)] == hs
  {
    GridCovers(N, H);
    for row := 0 to GridX(H) * 32
      invariant Filled(1, N, H, hOut[..], hOut0, hOutOff, HOutRow(p, act, N, H, wxs, uhs, hs), col, row)
      invariant training ==> Filled(3, N, H, v[..], v0, vOff, SaveRow(p, act, N, H, wxs, uhs, hs), col, row)
      invariant !training ==> v[..] == v0
      invariant h[hOff..hOff + Size(1, N, H)] == hs
      invariant wxs == wx[wxOff..wxOff + Size(2, N, H)] && uhs == uh[uhOff..uhOff + Size(2, N, H)]
    {
      ghost var hOutBefore, vBefore := hOut[..], v[..];
      PointwiseOperations(training, p, act, N, H, row, col, wx, wxOff, uh, uhOff, h, hOff, hOut, hOutOff, v, vOff);
      ThreadStep(training, p, act, N, H, wxs, uhs, hs, hOutBefore, hOut[..], hOut0, hOutOff, vBefore, v[..], v0, vOff, col, row);
      UnwrittenSliceKept(N, H, h, hOff, hOut, hOutOff, hOut0, HOutRow(p, act, N, H, wxs, uhs, hs), col, row + 1, hs);
    }
    FilledNextCol(1, N, H, hOut[..], hOut0, hOutOff, HOutRow(p, act, N, H, wxs, uhs, hs), col, GridX(H) * 32);
    if training {
      FilledNextCol(3, N, H, v[..], v0, vOff, SaveRow(p, act, N, H, wxs, uhs, hs), col, GridX(H) * 32);
    }
  }

  /**
   * `PointwiseOperations<<<gridDim, blockDim>>>` over the (32, 16) blocks of the
   * ceil-div grid, run as a sequential loop over its threads (one valid schedule,
   * since in-range threads write distinct slots and read only slices the launch
   * does not write). h_out's slice becomes HOutRow, v's slice SaveRow when
   * training, and nothing else changes.
   */
  method Launch(training: bool, p: Pointwise, act: Activation, N: nat, H: nat,
                wx: array<real>, wxOff: nat, uh: array<real>, uhOff: nat,
                h: array<real>, hOff: nat, hOut: array<real>, hOutOff: nat, v: array<real>, vOff: nat)
    requires KernelBuffers(training, N, H, wx, wxOff, uh, uhOff, h, hOff, hOut, hOutOff, v, vOff)
    modifies hOut, v
    ensures StepInputs(N, H, wx[wxOff..wxOff + Size(2, N, H)], uh[uhOff..uhOff + Size(2, N, H)],
                       old(h[hOff..hOff + Size(1, N, H)]))
    ensures hOut[..] == Splice(old(hOut[..]), hOutOff,
      HOutRow(p, act, N, H, wx[wxOff..wxOff + Size(2, N, H)], uh[uhOff..uhOff + Size(2, N, H)], old(h[hOff..hOff + Size(1, N, H)])))
    ensures training ==> v[..] == Splice(old(v[..]), vOff,
      SaveRow(p, act, N, H, wx[wxOff..wxOff + Size(2, N, H)], uh[uhOff..uhOff + Size(2, N, H)], old(h[hOff..hOff + Size(1, N, H)])))
    ensures !training ==> v[..] == old(v[..])
  {
    ghost var wxs, uhs, hs := wx[wxOff..wxOff + Size(2, N, H)], uh[uhOff..uhOff + Size(2, N, H)], h[hOff..hOff + Size(1, N, H)];
    ghost var hOut0, v0 := hOut[..], v[..];
    FilledStart(1, N, H, hOut0, hOutOff, HOutRow(p, act, N, H, wxs, uhs, hs));
    if training {
      FilledStart(3, N, H, v0, vOff, SaveRow(p, act, N, H, wxs, uhs, hs));
    }
    GridCovers(N, H);
    for col := 0 to GridY(N) * 16
      invariant Filled(1, N, H, hOut[..], hOut0, hOutOff, HOutRow(p, act, N, H, wxs, uhs, hs), col, 0)
      invariant training ==> Filled(3, N, H, v[..], v0, vOff, SaveRow(p, act, N, H, wxs, uhs, hs), col, 0)
      invariant !training ==> v[..] == v0
      invariant h[hOff..hOff + Size(1, N, H)] == hs
      invariant wxs == wx[wxOff..wxOff + Size(2, N, H)] && uhs == uh[uhOff..uhOff + Size(2, N, H)]
    {
      LaunchColumn(training, p, act, N, H, wx, wxOff, uh, uhOff, h, hOff, hOut, hOutOff, v, vOff, col, wxs, uhs, hs, hOut0, v0);
    }
    FilledEnd(1, N, H, hOut[..], hOut0, hOutOff, HOutRow(p, act, N, H, wxs, uhs, hs), GridY(N) * 16);
    if training {
      FilledEnd(3, N, H, v[..], v0, vOff, SaveRow(p, act, N, H, wxs, uhs, hs), GridY(N) * 16);
    }
  }

  /** A launch writing only h_out's slice leaves the disjoint h slice it reads as it was. */
  lemma {:induction false} UnwrittenSliceKept(N: nat, H: nat, h: array<real>, hOff: nat, hOut: array<real>, hOutOff: nat,
                           hOut0: seq<real>, fullH: seq<real>, col: nat, row: nat, hs: seq<real>)
    requires hOff + Size(1, N, H) <= h.Length && hOutOff + Size(1, N, H) <= hOut.Length
    requires h == hOut ==> hOff + Size(1, N, H) <= hOutOff || hOutOff + Size(1, N, H) <= hOff
    requires |hOut0| == hOut.Length && |fullH| == Size(1, N, H)
    requires Filled(1, N, H, hOut[..], hOut0, hOutOff, fullH, col, row)
    requires h == hOut ==> hOut0[hOff..hOff + Size(1, N, H)] == hs
    requires h != hOut ==> h[hOff..hOff + Size(1, N, H)] == hs
    ensures h[hOff..hOff + Size(1, N, H)] == hs
  {
    if h == hOut {
      forall j | hOff <= j < hOff + Size(1, N, H)
        ensures hOut[..][j] == hOut0[j]
      {
      }
      assert h[hOff..hOff + Size(1, N, H)] == hOut0[hOff..hOff + Size(1, N, H)];
    }
  }

  /**
   * tmp_uh for one step: `gemm(OP_N, OP_N, 2H, N, H, 1, u, 2H, h, H, 0, tmp_uh, 2H)`,
   * the 2H x H recurrent weights times the H x N state. With beta 0 the old
   * contents of tmp_uh do not matter (GemmOverwrites). cuBLAS rejects a leading
   * dimension of 0, so with H == 0 nothing is written (and the step is empty).
   */
  function UhRow(N: nat, H: nat, u: seq<real>, hs: seq<real>): (r: seq<real>)
    requires Mul(H, H * 2) <= |u| && |hs| == Size(1, N, H)
    ensures |r| == Size(2, N, H)
  {
    MulComm(N, 0);
    Widths(H);
    if H == 0 then []
    else Gemm(H * 2, N, H, 1.0, Matrix(u, H * 2, OpN), Matrix(hs, H, OpN), 0.0, Zeros(Size(2, N, H)), H * 2)
  }

  /**
   * Gate g of thread (col, row) in tmp_uh is the dot product of row g*H + row of
   * U with the state of batch element col.
   */
  lemma {:induction false} UhRowAt(N: nat, H: nat, u: seq<real>, hs: seq<real>, col: nat, row: nat, g: nat)
    requires Mul(H, H * 2) <= |u| && |hs| == Size(1, N, H) && col < N && row < H && g < 2
    ensures Holds(Matrix(u, H * 2, OpN), H * 2, H) && Holds(Matrix(hs, H, OpN), H, N) && Mul(g, H) + row < H * 2
    ensures Index(2, H, Thread(col, row), g) < Size(2, N, H)
    ensures UhRow(N, H, u, hs)[Index(2, H, Thread(col, row), g)]
            == Dot(Matrix(u, H * 2, OpN), Matrix(hs, H, OpN), H * 2, N, H, Mul(g, H) + row, col, H)
  {
    IndexBound(2, N, H, col, row, g);
    Widths(H);
    var i := Mul(g, H) + row;
    assert Index(2, H, Thread(col, row), g) == i + Mul(col, H * 2);
    InBlocks(2, H, row, g);
    UhRowEntry(N, H, u, hs, col, i);
  }

  /** Row i of column col of tmp_uh is the dot product of row i of U with column col of the state. */
  lemma {:induction false} UhRowEntry(N: nat, H: nat, u: seq<real>, hs: seq<real>, col: nat, i: nat)
    requires Mul(H, H * 2) <= |u| && |hs| == Size(1, N, H) && col < N && i < H * 2
    ensures Holds(Matrix(u, H * 2, OpN), H * 2, H) && Holds(Matrix(hs, H, OpN), H, N)
    ensures i + Mul(col, H * 2) < Size(2, N, H)
    ensures UhRow(N, H, u, hs)[i + Mul(col, H * 2)] == Dot(Matrix(u, H * 2, OpN), Matrix(hs, H, OpN), H * 2, N, H, i, col, H)
  {
    Widths(H);
    MulComm(N, H);
    var A, B, C := Matrix(u, H * 2, OpN), Matrix(hs, H, OpN), Zeros(Size(2, N, H));
    GemmAt(H * 2, N, H, 1.0, A, B, 0.0, C, H * 2, i, col);
    assert UhRow(N, H, u, hs) == Gemm(H * 2, N, H, 1.0, A, B, 0.0, C, H * 2);
  }

  /** What a whole forward run is computed from. */
  datatype RunInputs = RunInputs(p: Pointwise, ln: NormFn, training: bool, code: int,
                                 N: nat, H: nat, T: nat, u: seq<real>, wx: seq<real>, h0: seq<real>)

  /** u holds the 2H x H weights, wx T steps of N x 2H values, h0 T + 1 states. */
  predicate WellSized(r: RunInputs)
  {
    Mul(r.H, r.H * 2) <= |r.u| && Mul(r.T, Size(2, r.N, r.H)) <= |r.wx| && Mul(r.T + 1, Size(1, r.N, r.H)) <= |r.h0|
  }

  /**
   * The reference recurrence: State(0) is the initial state h[0], and
   * State(t + 1) is the kernel's blend applied to wx[t], the normalised U State(t)
   * and State(t). When the activation code launches no kernel, h[t + 1] keeps
   * whatever the buffer held.
   */
  function State(r: RunInputs, t: nat): (s: seq<real>)
    requires WellSized(r) && t <= r.T
    ensures |s| == Size(1, r.N, r.H)
    decreases t, 0
  {
    RowInBounds(r.T + 1, t, Size(1, r.N, r.H));
    if t == 0 then Row(r.h0, 0, Size(1, r.N, r.H))
    else match ForwardKernelFor(r.training, r.code)
      case None => Row(r.h0, t, Size(1, r.N, r.H))
      case Some(act) =>
        var prev := State(r, t - 1);
        RowInBounds(r.T, t - 1, Size(2, r.N, r.H));
        HOutRow(r.p, act, r.N, r.H, Row(r.wx, t - 1, Size(2, r.N, r.H)), Normed(r, t - 1), prev)
  }

  /** tmp_uh's row for step t. */
  function Uh(r: RunInputs, t: nat): (s: seq<real>)
    requires WellSized(r) && t < r.T
    ensures |s| == Size(2, r.N, r.H)
    decreases t, 1
  {
    UhRow(r.N, r.H, r.u, State(r, t))
  }

  /** The layer-norm sub-kernel's output at step t (what tmp_uh_norm holds after step t). */
  function Normed(r: RunInputs, t: nat): (s: seq<real>)
    requires WellSized(r) && t < r.T
    ensures |s| == Size(2, r.N, r.H)
    decreases t, 2
  {
    r.ln(t, Uh(r, t))
  }

  /** The save buffer's row for step t when kernel act runs in training. */
  function Saved(r: RunInputs, act: Activation, t: nat): (s: seq<real>)
    requires WellSized(r) && t < r.T
    ensures |s| == Size(3, r.N, r.H)
  {
    RowInBounds(r.T, t, Size(2, r.N, r.H));
    SaveRow(r.p, act, r.N, r.H, Row(r.wx, t, Size(2, r.N, r.H)), Normed(r, t), State(r, t))
  }

  /**
   * The state the training and the inference pass compute is the same for every
   * activation both support: the training flag only decides whether v is written.
   */
  lemma {:induction false} TrainingKeepsStates(r: RunInputs, t: nat)
    requires WellSized(r) && t <= r.T && ForwardKernelFor(false, r.code).Some?
    ensures State(r.(training := true), t) == State(r.(training := false), t)
    decreases t
  {
    if t == 0 {
      TrainingKeepsStart(r);
    } else {
      var prev := t - 1;
      TrainingKeepsStates(r, prev);
      TrainingKeepsStep(r, prev, t);
    }
  }

  /** Both passes start from the initial state h[0]. */
  lemma {:induction false} TrainingKeepsStart(r: RunInputs)
    requires WellSized(r)
    ensures State(r.(training := true), 0) == State(r.(training := false), 0)
  {
    assert State(r.(training := true), 0) == Row(r.h0, 0, Size(1, r.N, r.H));
  }

  /** The inductive step of TrainingKeepsStates: equal states before step prev give equal states after it. */
  lemma {:induction false} TrainingKeepsStep(r: RunInputs, prev: nat, t: nat)
    requires WellSized(r) && prev < r.T && t == prev + 1 && ForwardKernelFor(false, r.code).Some?
    requires State(r.(training := true), prev) == State(r.(training := false), prev)
    ensures State(r.(training := true), t) == State(r.(training := false), t)
  {
    var rt, ri := r.(training := true), r.(training := false);
    var act := ForwardKernelFor(false, r.code).value;
    DispatchInvertsCode(act, r.code);
    assert ForwardKernelFor(true, r.code) == ForwardKernelFor(false, r.code);
    assert Uh(rt, prev) == Uh(ri, prev);
    assert Normed(rt, prev) == Normed(ri, prev);
    var W2 := Size(2, r.N, r.H);
    RowInBounds(r.T, prev, W2);
    var wxs := Row(r.wx, prev, W2);
    assert State(rt, t) == HOutRow(r.p, act, r.N, r.H, wxs, Normed(rt, prev), State(rt, prev));
    assert State(ri, t) == HOutRow(r.p, act, r.N, r.H, wxs, Normed(ri, prev), State(ri, prev));
  }

  /** The states 0..n-1 of the reference recurrence, in order. */
  function States(r: RunInputs, n: nat): (rows: seq<seq<real>>)
    requires WellSized(r) && n <= r.T + 1
    ensures |rows| == n && forall t | 0 <= t < n :: rows[t] == State(r, t)
  {
    seq(n, t requires 0 <= t < n => State(r, t))
  }

  /** tmp_uh's rows for steps 0..n-1. */
  function Uhs(r: RunInputs, n: nat): (rows: seq<seq<real>>)
    requires WellSized(r) && n <= r.T
    ensures |rows| == n && forall t | 0 <= t < n :: rows[t] == Uh(r, t)
  {
    seq(n, t requires 0 <= t < n => Uh(r, t))
  }

  /** v's rows for steps 0..n-1 when kernel act runs in training. */
  function Saveds(r: RunInputs, act: Activation, n: nat): (rows: seq<seq<real>>)
    requires WellSized(r) && n <= r.T
    ensures |rows| == n && forall t | 0 <= t < n :: rows[t] == Saved(r, act, t)
  {
    seq(n, t requires 0 <= t < n => Saved(r, act, t))
  }

  /** One more state extends the sequence of states by it. */
  lemma {:induction false} StatesSnoc(r: RunInputs, k: nat, n: nat)
    requires WellSized(r) && k <= r.T && n == k + 1
    ensures States(r, n) == States(r, k) + [State(r, k)]
  {
    Snoc(States(r, k), States(r, n), State(r, k));
  }

  /** One more step extends tmp_uh's rows by its Uh. */
  lemma {:induction false} UhsSnoc(r: RunInputs, k: nat, n: nat)
    requires WellSized(r) && k < r.T && n == k + 1
    ensures Uhs(r, n) == Uhs(r, k) + [Uh(r, k)]
  {
    Snoc(Uhs(r, k), Uhs(r, n), Uh(r, k));
  }

  /** One more step extends v's rows by what it saved. */
  lemma {:induction false} SavedsSnoc(r: RunInputs, act: Activation, k: nat, n: nat)
    requires WellSized(r) && k < r.T && n == k + 1
    ensures Saveds(r, act, n) == Saveds(r, act, k) + [Saved(r, act, k)]
  {
    Snoc(Saveds(r, act, k), Saveds(r, act, n), Saved(r, act, k));
  }

  /** States 0..i are in place and the rows after them still hold their initial contents. */
  ghost predicate StatesUpTo(r: RunInputs, i: nat, h: seq<real>)
  {
    WellSized(r) && i <= r.T && Written(h, r.h0, Size(1, r.N, r.H), States(r, i + 1))
  }

  /** tmp_uh's rows 0..i-1 are in place and its later rows are as they were. */
  ghost predicate UhUpTo(r: RunInputs, i: nat, uh: seq<real>, uh0: seq<real>)
  {
    WellSized(r) && i <= r.T && Mul(r.T, Size(2, r.N, r.H)) <= |uh| && Written(uh, uh0, Size(2, r.N, r.H), Uhs(r, i))
  }

  /** v's rows 0..i-1 hold what kernel act saved and its later rows are as they were. */
  ghost predicate SavedUpTo(r: RunInputs, act: Activation, i: nat, v: seq<real>, v0: seq<real>)
  {
    WellSized(r) && i <= r.T && Mul(r.T, Size(3, r.N, r.H)) <= |v| && Written(v, v0, Size(3, r.N, r.H), Saveds(r, act, i))
  }

  /** Step i writes State(i + 1) into row next == i + 1, or nothing when no kernel runs. */
  lemma {:induction false} StatesStep(r: RunInputs, i: nat, next: nat, hb: seq<real>, ha: seq<real>)
    requires StatesUpTo(r, i, hb) && i < r.T && next == i + 1 && Mul(next, Size(1, r.N, r.H)) + Size(1, r.N, r.H) <= |hb|
    requires ha == match ForwardKernelFor(r.training, r.code)
      case None => hb
      case Some(_) => Splice(hb, Mul(next, Size(1, r.N, r.H)), State(r, next))
    ensures StatesUpTo(r, next, ha)
  {
    var W1 := Size(1, r.N, r.H);
    var rows := States(r, next);
    var after := next + 1;
    StatesSnoc(r, next, after);
    if ForwardKernelFor(r.training, r.code).None? {
      assert State(r, next) == Row(r.h0, next, W1);
      WrittenKept(hb, r.h0, W1, rows);
    } else {
      WrittenSplice(hb, r.h0, W1, rows, State(r, next));
    }
  }

  /** Step i writes Uh(i) into row i of tmp_uh. */
  lemma {:induction false} UhStep(r: RunInputs, i: nat, next: nat, ub: seq<real>, ua: seq<real>, uh0: seq<real>)
    requires WellSized(r) && i < r.T && next == i + 1 && |ub| == |uh0|
    requires UhUpTo(r, i, ub, uh0) && Mul(i, Size(2, r.N, r.H)) + Size(2, r.N, r.H) <= |ub|
    requires ua == Splice(ub, Mul(i, Size(2, r.N, r.H)), Uh(r, i))
    ensures UhUpTo(r, next, ua, uh0)
  {
    UhsSnoc(r, i, next);
    WrittenSplice(ub, uh0, Size(2, r.N, r.H), Uhs(r, i), Uh(r, i));
  }

  /** Step i writes Saved(i) into row i of v. */
  lemma {:induction false} SavedStep(r: RunInputs, act: Activation, i: nat, next: nat, vb: seq<real>, va: seq<real>, v0: seq<real>)
    requires WellSized(r) && i < r.T && next == i + 1 && |vb| == |v0|
    requires SavedUpTo(r, act, i, vb, v0) && Mul(i, Size(3, r.N, r.H)) + Size(3, r.N, r.H) <= |vb|
    requires va == Splice(vb, Mul(i, Size(3, r.N, r.H)), Saved(r, act, i))
    ensures SavedUpTo(r, act, next, va, v0)
  {
    SavedsSnoc(r, act, i, next);
    WrittenSplice(vb, v0, Size(3, r.N, r.H), Saveds(r, act, i), Saved(r, act, i));
  }

  /**
   * `gemm(OP_N, OP_N, 2H, N, H, 1, u, 2H, h, H, 0, tmp_uh, 2H)`: tmp_uh's slice
   * becomes UhRow of the state slice, and nothing else changes.
   */
  method RecurrentGemm(N: nat, H: nat, u: seq<real>, hs: seq<real>, tmpUh: array<real>, uhOff: nat)
    requires Mul(H, H * 2) <= |u| && |hs| == Size(1, N, H) && uhOff + Size(2, N, H) <= tmpUh.Length
    modifies tmpUh
    ensures tmpUh[..] == Splice(old(tmpUh[..]), uhOff, UhRow(N, H, u, hs))
  {
    Widths(H);
    if H > 0 {
      var A, B := Matrix(u, H * 2, OpN), Matrix(hs, H, OpN);
      MulComm(N, H * 2);
      ghost var c := tmpUh[uhOff..uhOff + Mul(N, H * 2)];
      GemmOverwrites(H * 2, N, H, 1.0, A, B, c, Zeros(Size(2, N, H)));
      GemmInto(H * 2, N, H, 1.0, A, B, 0.0, tmpUh, uhOff, H * 2);
      assert UhRow(N, H, u, hs) == Gemm(H * 2, N, H, 1.0, A, B, 0.0, c, H * 2);
    } else {
      assert UhRow(N, H, u, hs) == [];
      assert Splice(tmpUh[..], uhOff, []) == tmpUh[..];
    }
  }

  /**
   * The first half of a step: the recurrent GEMM into tmp_uh, then
   * `layer_norm1.RunPartial(stream1, batch_size, tmp_uh, tmp_uh_norm)`.
   */
  method ProjectAndNormalise(ln: NormFn, step: nat, N: nat, H: nat, u: array<real>, h: array<real>, hOff: nat,
                             tmpUh: array<real>, uhOff: nat, tmpUhNorm: array<real>)
    requires Mul(H, H * 2) <= u.Length && hOff + Size(1, N, H) <= h.Length && uhOff + Size(2, N, H) <= tmpUh.Length
    requires Size(2, N, H) <= tmpUhNorm.Length
    requires tmpUh != u && tmpUh != h && tmpUh != tmpUhNorm && tmpUhNorm != u && tmpUhNorm != h
    modifies tmpUh, tmpUhNorm
    ensures tmpUh[..] == Splice(old(tmpUh[..]), uhOff, UhRow(N, H, u[..], h[hOff..hOff + Size(1, N, H)]))
    ensures tmpUhNorm[..] == Splice(old(tmpUhNorm[..]), 0, ln(step, UhRow(N, H, u[..], h[hOff..hOff + Size(1, N, H)])))
    ensures tmpUhNorm[0..Size(2, N, H)] == ln(step, UhRow(N, H, u[..], h[hOff..hOff + Size(1, N, H)]))
  {
    ghost var uh0, norm0 := tmpUh[..], tmpUhNorm[..];
    ghost var uhNew := UhRow(N, H, u[..], h[hOff..hOff + Size(1, N, H)]);
    RecurrentGemm(N, H, u[..], h[hOff..hOff + Size(1, N, H)], tmpUh, uhOff);
    SpliceWindow(uh0, uhOff, uhNew);
    Store(tmpUhNorm, 0, ln(step, tmpUh[uhOff..uhOff + Size(2, N, H)]));
    SpliceWindow(norm0, 0, ln(step, uhNew));
  }


  /**
   * h_out after the kernel launch of one step: the kernel the activation code
   * selects (ForwardKernelFor) overwrites h_out's slice with HOutRow; a code that
   * selects no kernel leaves h_out as it was.
   */
  function KernelH(p: Pointwise, training: bool, code: int, N: nat, H: nat, wxs: seq<real>, uhs: seq<real>,
                   hs: seq<real>, hOut: seq<real>, hOutOff: nat): (r: seq<real>)
    requires StepInputs(N, H, wxs, uhs, hs) && hOutOff + Size(1, N, H) <= |hOut|
    ensures |r| == |hOut|
  {
    match ForwardKernelFor(training, code)
    case None => hOut
    case Some(act) => Splice(hOut, hOutOff, HOutRow(p, act, N, H, wxs, uhs, hs))
  }

  /** v after the launch: a kernel that runs in training overwrites v's slice with SaveRow. */
  function KernelV(p: Pointwise, training: bool, code: int, N: nat, H: nat, wxs: seq<real>, uhs: seq<real>,
                   hs: seq<real>, v: seq<real>, vOff: nat): (r: seq<real>)
    requires StepInputs(N, H, wxs, uhs, hs) && (training ==> vOff + Size(3, N, H) <= |v|)
    ensures |r| == |v|
  {
    match ForwardKernelFor(training, code)
    case None => v
    case Some(act) => if training then Splice(v, vOff, SaveRow(p, act, N, H, wxs, uhs, hs)) else v
  }

  /**
   * The if/else chain on `training` and `activation` that picks the kernel to
   * launch: codes 0 to 3 in training, 0, 1 and 3 in inference.
   */
  method Dispatch(training: bool, code: int, p: Pointwise, N: nat, H: nat,
                  wx: array<real>, wxOff: nat, uh: array<real>, uhOff: nat,
                  h: array<real>, hOff: nat, hOut: array<real>, hOutOff: nat, v: array<real>, vOff: nat,
                  ghost wxs: seq<real>, ghost uhs: seq<real>, ghost hs: seq<real>)
    requires KernelBuffers(training, N, H, wx, wxOff, uh, uhOff, h, hOff, hOut, hOutOff, v, vOff)
    requires wx[wxOff..wxOff + Size(2, N, H)] == wxs && uh[uhOff..uhOff + Size(2, N, H)] == uhs
    requires h[hOff..hOff + Size(1, N, H)] == hs
    modifies hOut, v
    ensures StepInputs(N, H, wxs, uhs, hs)
    ensures hOut[..] == KernelH(p, training, code, N, H, wxs, uhs, hs, old(hOut[..]), hOutOff)
    ensures v[..] == KernelV(p, training, code, N, H, wxs, uhs, hs, old(v[..]), vOff)
  {
    match ForwardKernelFor(training, code) {
      case None =>
      case Some(act) =>
        Launch(training, p, act, N, H, wx, wxOff, uh, uhOff, h, hOff, hOut, hOutOff, v, vOff);
    }
  }

  /** The contents of the buffers a step writes: h_out, tmp_uh, v and tmp_uh_norm. */
  datatype Buffers = Buffers(h: seq<real>, uh: seq<real>, v: seq<real>, norm: seq<real>)

  /** Buffers that hold a step's slices at these offsets. */
  predicate StepFits(training: bool, N: nat, H: nat, b: Buffers, hOutOff: nat, vOff: nat, uhOff: nat)
  {
    hOutOff + Size(1, N, H) <= |b.h| && uhOff + Size(2, N, H) <= |b.uh| &&
    (training ==> vOff + Size(3, N, H) <= |b.v|) && Size(2, N, H) <= |b.norm|
  }

  /**
   * What one IterateInternal call does to the buffers, given the weights u, the
   * state slice hs and the tmp_wx slice wxs it reads: tmp_uh's slice becomes
   * U hs, tmp_uh_norm becomes its layer normalisation at this step, and h_out and
   * v become what the selected kernel writes from wxs, the normalised product
   * and hs.
   */
  function IterateOut(p: Pointwise, ln: NormFn, training: bool, code: int, N: nat, H: nat, step: nat,
                      u: seq<real>, hs: seq<real>, wxs: seq<real>, b: Buffers,
                      hOutOff: nat, vOff: nat, uhOff: nat): (b': Buffers)
    requires Mul(H, H * 2) <= |u| && |hs| == Size(1, N, H) && |wxs| == Size(2, N, H)
    requires StepFits(training, N, H, b, hOutOff, vOff, uhOff)
    ensures |b'.h| == |b.h| && |b'.uh| == |b.uh| && |b'.v| == |b.v| && |b'.norm| == |b.norm|
  {
    var uhNew := UhRow(N, H, u, hs);
    var normNew := ln(step, uhNew);
    Buffers(KernelH(p, training, code, N, H, wxs, normNew, hs, b.h, hOutOff),
            Splice(b.uh, uhOff, uhNew),
            KernelV(p, training, code, N, H, wxs, normNew, hs, b.v, vOff),
            Splice(b.norm, 0, normNew))
  }

  /**
   * Buffers of a run: h of the initial state buffer's length (T + 1 states),
   * tmp_uh for T steps, v for T steps when training and tmp_uh_norm for one.
   */
  predicate RunFits(r: RunInputs, b: Buffers)
  {
    var fits := WellSized(r) && |b.h| == |r.h0| && Mul(r.T, Size(2, r.N, r.H)) <= |b.uh| &&
      (r.training ==> Mul(r.T, Size(3, r.N, r.H)) <= |b.v|) && Size(2, r.N, r.H) <= |b.norm|;
    fits
  }

  /**
   * Iteration i of Run's loop: IterateInternal reading h's row i and wx's row i
   * and writing h's row i + 1, v's row i and tmp_uh's row i.
   */
  function Step(r: RunInputs, i: nat, b: Buffers): (b': Buffers)
    requires RunFits(r, b) && i < r.T
    ensures RunFits(r, b')
  {
    var W1, W2, W3 := Size(1, r.N, r.H), Size(2, r.N, r.H), Size(3, r.N, r.H);
    RowInBounds(r.T + 1, i, W1);
    RowInBounds(r.T + 1, i + 1, W1);
    RowInBounds(r.T, i, W2);
    RowInBounds(r.T, i, W3);
    IterateOut(r.p, r.ln, r.training, r.code, r.N, r.H, i, r.u, Row(b.h, i, W1), Row(r.wx, i, W2), b,
               Mul(i + 1, W1), Mul(i, W3), Mul(i, W2))
  }

  /**
   * Step i in the reference recurrence's terms, one buffer at a time: when h's row
   * i holds State(i), the step writes State(i + 1) into h's row next == i + 1
   * (nothing when no kernel runs), Uh(i) into tmp_uh's row i, Saved(i) into v's
   * row i when a kernel runs in training, and Normed(i) into tmp_uh_norm.
   */
  lemma {:induction false} StepState(r: RunInputs, i: nat, next: nat, b: Buffers, ha: seq<real>)
    requires RunFits(r, b) && i < r.T && next == i + 1
    requires Mul(i, Size(1, r.N, r.H)) + Size(1, r.N, r.H) <= |b.h| && Row(b.h, i, Size(1, r.N, r.H)) == State(r, i)
    requires Mul(next, Size(1, r.N, r.H)) + Size(1, r.N, r.H) <= |b.h| && ha == Step(r, i, b).h
    ensures ha == match ForwardKernelFor(r.training, r.code)
      case None => b.h
      case Some(_) => Splice(b.h, Mul(next, Size(1, r.N, r.H)), State(r, next))
  {
    var W1, W2 := Size(1, r.N, r.H), Size(2, r.N, r.H);
    RowInBounds(r.T, i, W2);
    var hs, wxs := Row(b.h, i, W1), Row(r.wx, i, W2);
    assert Uh(r, i) == UhRow(r.N, r.H, r.u, hs);
    assert Normed(r, i) == r.ln(i, UhRow(r.N, r.H, r.u, hs));
    var W3 := Size(3, r.N, r.H);
    RowInBounds(r.T + 1, next, W1);
    RowInBounds(r.T, i, W3);
    assert Step(r, i, b) == IterateOut(r.p, r.ln, r.training, r.code, r.N, r.H, i, r.u, hs, wxs, b,
                                       Mul(next, W1), Mul(i, W3), Mul(i, W2));
    assert Step(r, i, b).h == KernelH(r.p, r.training, r.code, r.N, r.H, wxs, r.ln(i, UhRow(r.N, r.H, r.u, hs)), hs, b.h, Mul(next, W1));
    match ForwardKernelFor(r.training, r.code)
    case None =>
    case Some(act) => StateNext(r, i, next, act);
  }

  /** State(next) is what the kernel computes from State(i) when one runs. */
  lemma {:induction false} StateNext(r: RunInputs, i: nat, next: nat, act: Activation)
    requires WellSized(r) && i < r.T && next == i + 1 && ForwardKernelFor(r.training, r.code) == Some(act)
    ensures Mul(i, Size(2, r.N, r.H)) + Size(2, r.N, r.H) <= |r.wx|
    ensures State(r, next) == HOutRow(r.p, act, r.N, r.H, Row(r.wx, i, Size(2, r.N, r.H)), Normed(r, i), State(r, i))
  {
    RowInBounds(r.T, i, Size(2, r.N, r.H));
  }

  lemma {:induction false} StepUh(r: RunInputs, i: nat, b: Buffers)
    requires RunFits(r, b) && i < r.T
    requires Mul(i, Size(1, r.N, r.H)) + Size(1, r.N, r.H) <= |b.h| && Row(b.h, i, Size(1, r.N, r.H)) == State(r, i)
    requires Mul(i, Size(2, r.N, r.H)) + Size(2, r.N, r.H) <= |b.uh|
    ensures Step(r, i, b).uh == Splice(b.uh, Mul(i, Size(2, r.N, r.H)), Uh(r, i))
  {
  }

  lemma {:induction false} StepSaved(r: RunInputs, i: nat, b: Buffers)
    requires RunFits(r, b) && i < r.T
    requires Mul(i, Size(1, r.N, r.H)) + Size(1, r.N, r.H) <= |b.h| && Row(b.h, i, Size(1, r.N, r.H)) == State(r, i)
    requires r.training ==> Mul(i, Size(3, r.N, r.H)) + Size(3, r.N, r.H) <= |b.v|
    ensures Step(r, i, b).v == match ForwardKernelFor(r.training, r.code)
      case None => b.v
      case Some(act) => if r.training then Splice(b.v, Mul(i, Size(3, r.N, r.H)), Saved(r, act, i)) else b.v
  {
    assert Normed(r, i) == r.ln(i, UhRow(r.N, r.H, r.u, Row(b.h, i, Size(1, r.N, r.H))));
  }

  lemma {:induction false} StepNormed(r: RunInputs, i: nat, b: Buffers)
    requires RunFits(r, b) && i < r.T
    requires Mul(i, Size(1, r.N, r.H)) + Size(1, r.N, r.H) <= |b.h| && Row(b.h, i, Size(1, r.N, r.H)) == State(r, i)
    ensures Step(r, i, b).norm == Splice(b.norm, 0, Normed(r, i))
  {
  }

  /** v's rows below i hold what the kernel saved, when one runs in training; otherwise v is untouched. */
  ghost predicate SavesUpTo(r: RunInputs, i: nat, v: seq<real>, v0: seq<real>)
  {
    match ForwardKernelFor(r.training, r.code)
    case None => v == v0
    case Some(act) => if r.training then SavedUpTo(r, act, i, v, v0) else v == v0
  }

  /** tmp_uh_norm holds the last step's Normed once a step has run. */
  ghost predicate NormUpTo(r: RunInputs, i: nat, norm: seq<real>, norm0: seq<real>)
  {
    WellSized(r) && i <= r.T && Size(2, r.N, r.H) <= |norm0| &&
    norm == if i == 0 then norm0 else Splice(norm0, 0, Normed(r, i - 1))
  }

  /**
   * The buffers after the first i iterations of Run's loop, from their contents b0
   * before it, in the reference recurrence's terms: h[t] is State(t) for every
   * t <= i (h[0] untouched), tmp_uh's rows below i are Uh(t), v's rows below i are
   * what the kernel saved when it runs in training (v is untouched otherwise),
   * tmp_uh_norm holds the last step's Normed, and every row the loop has not
   * reached yet is as it was.
   */
  ghost predicate Progress(r: RunInputs, b0: Buffers, i: nat, b: Buffers)
  {
    var inPlace := RunFits(r, b) && i <= r.T &&
      StatesUpTo(r, i, b.h) && UhUpTo(r, i, b.uh, b0.uh) && SavesUpTo(r, i, b.v, b0.v) && NormUpTo(r, i, b.norm, b0.norm);
    inPlace
  }

  /** Before the loop h holds State(0) in row 0, which is h[0] itself. */
  lemma {:induction false} StatesAtStart(r: RunInputs)
    requires WellSized(r)
    ensures StatesUpTo(r, 0, r.h0)
  {
    var W1 := Size(1, r.N, r.H);
    RowInBounds(r.T + 1, 0, W1);
    WrittenNothing(r.h0, W1);
    WrittenKept(r.h0, r.h0, W1, []);
    StatesSnoc(r, 0, 1);
  }

  /** Before the first iteration nothing has been written yet. */
  lemma {:induction false} ProgressAtStart(r: RunInputs, b0: Buffers)
    requires RunFits(r, b0) && b0.h == r.h0
    ensures Progress(r, b0, 0, b0)
  {
    StatesAtStart(r);
    WrittenNothing(b0.uh, Size(2, r.N, r.H));
    WrittenNothing(b0.v, Size(3, r.N, r.H));
  }

  /** Step i on buffers whose h holds the states up to row i leaves the states up to row next == i + 1. */
  lemma {:induction false} StatesAdvance(r: RunInputs, i: nat, next: nat, b: Buffers, b': Buffers)
    requires RunFits(r, b) && i < r.T && next == i + 1 && b' == Step(r, i, b)
    requires StatesUpTo(r, i, b.h)
    requires Mul(i, Size(1, r.N, r.H)) + Size(1, r.N, r.H) <= |b.h| && Row(b.h, i, Size(1, r.N, r.H)) == State(r, i)
    ensures StatesUpTo(r, next, b'.h)
  {
    RowInBounds(r.T + 1, next, Size(1, r.N, r.H));
    StepState(r, i, next, b, b'.h);
    StatesStep(r, i, next, b.h, b'.h);
  }

  /** Step i writes tmp_uh's row i. */
  lemma {:induction false} UhAdvance(r: RunInputs, i: nat, next: nat, b: Buffers, b': Buffers, uh0: seq<real>)
    requires RunFits(r, b) && i < r.T && next == i + 1 && b' == Step(r, i, b)
    requires UhUpTo(r, i, b.uh, uh0) && |uh0| == |b.uh|
    requires Mul(i, Size(1, r.N, r.H)) + Size(1, r.N, r.H) <= |b.h| && Row(b.h, i, Size(1, r.N, r.H)) == State(r, i)
    ensures UhUpTo(r, next, b'.uh, uh0)
  {
    RowInBounds(r.T, i, Size(2, r.N, r.H));
    StepUh(r, i, b);
    UhStep(r, i, next, b.uh, b'.uh, uh0);
  }

  /** Step i writes v's row i when a kernel runs in training, and leaves v alone otherwise. */
  lemma {:induction false} SavesAdvance(r: RunInputs, i: nat, next: nat, b: Buffers, b': Buffers, v0: seq<real>)
    requires RunFits(r, b) && i < r.T && next == i + 1 && b' == Step(r, i, b)
    requires SavesUpTo(r, i, b.v, v0) && |v0| == |b.v|
    requires Mul(i, Size(1, r.N, r.H)) + Size(1, r.N, r.H) <= |b.h| && Row(b.h, i, Size(1, r.N, r.H)) == State(r, i)
    ensures SavesUpTo(r, next, b'.v, v0)
  {
    RowInBounds(r.T, i, Size(3, r.N, r.H));
    StepSaved(r, i, b);
    var kernel := ForwardKernelFor(r.training, r.code);
    if kernel.Some? && r.training {
      SavedStep(r, kernel.value, i, next, b.v, b'.v, v0);
    }
  }

  /** Step i leaves its Normed in tmp_uh_norm. */
  lemma {:induction false} NormAdvance(r: RunInputs, i: nat, next: nat, b: Buffers, b': Buffers, norm0: seq<real>)
    requires RunFits(r, b) && i < r.T && next == i + 1 && b' == Step(r, i, b)
    requires NormUpTo(r, i, b.norm, norm0)
    requires Mul(i, Size(1, r.N, r.H)) + Size(1, r.N, r.H) <= |b.h| && Row(b.h, i, Size(1, r.N, r.H)) == State(r, i)
    ensures NormUpTo(r, next, b'.norm, norm0)
  {
    StepNormed(r, i, b);
    if i > 0 {
      SpliceTwice(norm0, 0, Normed(r, i - 1), Normed(r, i));
    }
  }

  /**
   * Run's loop computes the reference recurrence: one more iteration takes the
   * buffers from Progress after i steps to Progress after i + 1 steps.
   */
  lemma {:induction false} ProgressStep(r: RunInputs, b0: Buffers, i: nat, b: Buffers, b': Buffers)
    requires i < r.T && Progress(r, b0, i, b) && b' == Step(r, i, b)
    ensures Progress(r, b0, i + 1, b')
  {
    var next := i + 1;
    WrittenRow(b.h, r.h0, Size(1, r.N, r.H), States(r, i + 1), i);
    StatesAdvance(r, i, next, b, b');
    UhAdvance(r, i, next, b, b', b0.uh);
    SavesAdvance(r, i, next, b, b', b0.v);
    NormAdvance(r, i, next, b, b', b0.norm);
  }

  /** The forward pass object: its configuration is fixed when it is made. */
  class ForwardPass {
    const training: bool
    const batchSize: nat
    const inputSize: nat
    const hiddenSize: nat
    const activation: int

    constructor(training: bool, batchSize: nat, inputSize: nat, hiddenSize: nat, activation: int)
      ensures this.training == training && this.batchSize == batchSize && this.inputSize == inputSize
      ensures this.hiddenSize == hiddenSize && this.activation == activation
    {
      this.training := training;
      this.batchSize := batchSize;
      this.inputSize := inputSize;
      this.hiddenSize := hiddenSize;
      this.activation := activation;
    }

    /**
     * The buffers of one step: the GEMM writes tmp_uh from u and h, the layer norm
     * writes tmp_uh_norm from tmp_uh, and the kernel writes h_out and v from tmp_wx,
     * tmp_uh_norm and h; no buffer is written while another step reads it.
     */
    predicate StepBuffers(u: array<real>, h: array<real>, hOff: nat, hOut: array<real>, hOutOff: nat,
                          v: array<real>, vOff: nat, tmpWx: array<real>, wxOff: nat,
                          tmpUh: array<real>, uhOff: nat, tmpUhNorm: array<real>)
    {
      var N, H := batchSize, hiddenSize;
      Mul(H, H * 2) <= u.Length &&
      KernelBuffers(training, N, H, tmpWx, wxOff, tmpUhNorm, 0, h, hOff, hOut, hOutOff, v, vOff) &&
      uhOff + Size(2, N, H) <= tmpUh.Length &&
      tmpUh != u && tmpUh != h && tmpUh != hOut && tmpUh != v && tmpUh != tmpUhNorm && tmpUh != tmpWx &&
      tmpUhNorm != u && tmpUhNorm != h && tmpUhNorm != tmpWx && hOut != u && v != u
    }

    /**
     * One time step: the recurrent GEMM, the layer norm and the kernel launch,
     * with the effect IterateOut states on h_out, tmp_uh, v and tmp_uh_norm.
     */
    method IterateInternal(p: Pointwise, ln: NormFn, step: nat, u: array<real>, h: array<real>, hOff: nat,
                           hOut: array<real>, hOutOff: nat, v: array<real>, vOff: nat,
                           tmpWx: array<real>, wxOff: nat, tmpUh: array<real>, uhOff: nat, tmpUhNorm: array<real>)
      requires StepBuffers(u, h, hOff, hOut, hOutOff, v, vOff, tmpWx, wxOff, tmpUh, uhOff, tmpUhNorm)
      modifies hOut, v, tmpUh, tmpUhNorm
      ensures Buffers(hOut[..], tmpUh[..], v[..], tmpUhNorm[..]) ==
        IterateOut(p, ln, training, activation, batchSize, hiddenSize, step, old(u[..]),
                   old(h[..])[hOff..hOff + Size(1, batchSize, hiddenSize)],
                   old(tmpWx[..])[wxOff..wxOff + Size(2, batchSize, hiddenSize)],
                   Buffers(old(hOut[..]), old(tmpUh[..]), old(v[..]), old(tmpUhNorm[..])), hOutOff, vOff, uhOff)
    {
      ghost var hs := h[hOff..hOff + Size(1, batchSize, hiddenSize)];
      ghost var wxs := tmpWx[wxOff..wxOff + Size(2, batchSize, hiddenSize)];
      assert hs == h[..][hOff..hOff + Size(1, batchSize, hiddenSize)];
      assert wxs == tmpWx[..][wxOff..wxOff + Size(2, batchSize, hiddenSize)];
      ghost var normNew := ln(step, UhRow(batchSize, hiddenSize, u[..], hs));
      ProjectAndNormalise(ln, step, batchSize, hiddenSize, u, h, hOff, tmpUh, uhOff, tmpUhNorm);
      ghost var uh1, norm1 := tmpUh[..], tmpUhNorm[..];
      Dispatch(training, activation, p, batchSize, hiddenSize, tmpWx, wxOff, tmpUhNorm, 0, h, hOff, hOut, hOutOff, v, vOff,
               wxs, normNew, hs);
      assert tmpUh[..] == uh1 && tmpUhNorm[..] == norm1;
    }

    /** The buffers of a run of T steps, as the framework glue allocates them. */
    predicate RunBuffers(T: nat, wx: array<real>, u: array<real>, h: array<real>, v: array<real>,
                         tmpUhNorm: array<real>, tmpUh: array<real>)
    {
      var fits := Mul(hiddenSize, hiddenSize * 2) <= u.Length && Mul(T, Size(2, batchSize, hiddenSize)) <= wx.Length &&
        Mul(T + 1, Size(1, batchSize, hiddenSize)) <= h.Length &&
        (training ==> Mul(T, Size(3, batchSize, hiddenSize)) <= v.Length) && Mul(T, Size(2, batchSize, hiddenSize)) <= tmpUh.Length &&
        Size(2, batchSize, hiddenSize) <= tmpUhNorm.Length &&
        h != u && h != wx && h != v && h != tmpUh && h != tmpUhNorm &&
        v != u && v != wx && v != tmpUh && v != tmpUhNorm &&
        tmpUh != u && tmpUh != wx && tmpUh != tmpUhNorm && tmpUhNorm != u && tmpUhNorm != wx;
      fits
    }

    /** The slices Run hands step i satisfy IterateInternal's requirements. */
    lemma {:induction false} RunStepBuffers(T: nat, i: nat, wx: array<real>, u: array<real>, h: array<real>, v: array<real>,
                         tmpUhNorm: array<real>, tmpUh: array<real>)
      requires RunBuffers(T, wx, u, h, v, tmpUhNorm, tmpUh) && i < T
      ensures var NH := Mul(batchSize, hiddenSize);
        StepBuffers(u, h, Mul(i, NH), h, Mul(i + 1, NH), v, Mul(i, NH) * 3, wx, Mul(i, NH) * 2, tmpUh, Mul(i, NH) * 2, tmpUhNorm)
    {
      StepOffsets(i, batchSize, hiddenSize);
      StepOffsets(i + 1, batchSize, hiddenSize);
      RowInBounds(T + 1, i + 1, Size(1, batchSize, hiddenSize));
      RowInBounds(T, i, Size(2, batchSize, hiddenSize));
      RowInBounds(T, i, Size(3, batchSize, hiddenSize));
    }

    /** What Run computes from: these arguments and the state buffer's initial contents. */
    ghost function Inputs(p: Pointwise, ln: NormFn, T: nat, u: seq<real>, wx: seq<real>, h0: seq<real>): RunInputs
    {
      RunInputs(p, ln, training, activation, batchSize, hiddenSize, T, u, wx, h0)
    }

    /**
     * The driver's pointers for step i (h + i*NH, h + (i+1)*NH, v + i*NH*3,
     * wx + i*NH*2, tmp_uh + i*NH*2) name row i of each buffer (row i + 1 of h), so
     * IterateInternal with them is Step i.
     */
    lemma {:induction false} StepIsIterate(r: RunInputs, i: nat, b: Buffers, N: nat, H: nat,
                                           hOff: nat, hOutOff: nat, vOff: nat, wxOff: nat, hs: seq<real>, wxs: seq<real>)
      requires RunFits(r, b) && i < r.T && r.N == N && r.H == H
      requires hOff == Mul(i, Size(1, N, H)) && hOutOff == Mul(i + 1, Size(1, N, H))
      requires vOff == Mul(i, Size(3, N, H)) && wxOff == Mul(i, Size(2, N, H))
      requires hOff + Size(1, N, H) <= |b.h| && hs == b.h[hOff..hOff + Size(1, N, H)]
      requires wxOff + Size(2, N, H) <= |r.wx| && wxs == r.wx[wxOff..wxOff + Size(2, N, H)]
      ensures StepFits(r.training, N, H, b, hOutOff, vOff, wxOff)
      ensures Step(r, i, b) == IterateOut(r.p, r.ln, r.training, r.code, N, H, i, r.u, hs, wxs, b, hOutOff, vOff, wxOff)
    {
      var W1, W2, W3 := Size(1, N, H), Size(2, N, H), Size(3, N, H);
      RowInBounds(r.T + 1, i + 1, W1);
      RowInBounds(r.T, i, W2);
      RowInBounds(r.T, i, W3);
      assert hs == Row(b.h, i, W1);
      assert wxs == Row(r.wx, i, W2);
    }

    /** IterateInternal on the slices of step i is Step i. */
    method StepAt(p: Pointwise, ln: NormFn, ghost r: RunInputs, i: nat, hOff: nat, hOutOff: nat, vOff: nat, wxOff: nat,
                  wx: array<real>, u: array<real>, h: array<real>, v: array<real>, tmpUhNorm: array<real>, tmpUh: array<real>)
      requires StepBuffers(u, h, hOff, h, hOutOff, v, vOff, wx, wxOff, tmpUh, wxOff, tmpUhNorm)
      requires RunFits(r, Buffers(h[..], tmpUh[..], v[..], tmpUhNorm[..])) && i < r.T
      requires r.p == p && r.ln == ln && r.training == training && r.code == activation
      requires r.N == batchSize && r.H == hiddenSize && r.u == u[..] && r.wx == wx[..]
      requires hOff == Mul(i, Size(1, batchSize, hiddenSize)) && hOutOff == Mul(i + 1, Size(1, batchSize, hiddenSize))
      requires vOff == Mul(i, Size(3, batchSize, hiddenSize)) && wxOff == Mul(i, Size(2, batchSize, hiddenSize))
      modifies h, v, tmpUhNorm, tmpUh
      ensures Buffers(h[..], tmpUh[..], v[..], tmpUhNorm[..]) ==
        Step(r, i, Buffers(old(h[..]), old(tmpUh[..]), old(v[..]), old(tmpUhNorm[..])))
    {
      ghost var b := Buffers(h[..], tmpUh[..], v[..], tmpUhNorm[..]);
      ghost var hs, wxs := h[..][hOff..hOff + Size(1, batchSize, hiddenSize)], wx[..][wxOff..wxOff + Size(2, batchSize, hiddenSize)];
      StepIsIterate(r, i, b, batchSize, hiddenSize, hOff, hOutOff, vOff, wxOff, hs, wxs);
      IterateInternal(p, ln, i, u, h, hOff, h, hOutOff, v, vOff, wx, wxOff, tmpUh, wxOff, tmpUhNorm);
    }

    /** r records Run's arguments: the primitives, this pass's fields and the weight and input buffers. */
    ghost predicate Describes(r: RunInputs, p: Pointwise, ln: NormFn, u: array<real>, wx: array<real>, h: array<real>)
      reads this, u, wx
    {
      var same := r.p == p && r.ln == ln && r.training == training && r.code == activation &&
        r.N == batchSize && r.H == hiddenSize && r.u == u[..] && r.wx == wx[..] && |r.h0| == h.Length;
      same
    }

    /** Iteration i of Run's loop, with the effect Step states. */
    method RunStep(p: Pointwise, ln: NormFn, ghost r: RunInputs, i: nat, wx: array<real>, u: array<real>,
                   h: array<real>, v: array<real>, tmpUhNorm: array<real>, tmpUh: array<real>)
      requires RunBuffers(r.T, wx, u, h, v, tmpUhNorm, tmpUh) && i < r.T
      requires Describes(r, p, ln, u, wx, h)
      modifies h, v, tmpUhNorm, tmpUh
      ensures Buffers(h[..], tmpUh[..], v[..], tmpUhNorm[..]) ==
        Step(r, i, Buffers(old(h[..]), old(tmpUh[..]), old(v[..]), old(tmpUhNorm[..])))
    {
      var NH := Mul(batchSize, hiddenSize);
      var hOff, hOutOff, vOff, wxOff := Mul(i, NH), Mul(i + 1, NH), Mul(i, NH) * 3, Mul(i, NH) * 2;
      RunStepBuffers(r.T, i, wx, u, h, v, tmpUhNorm, tmpUh);
      StepOffsets(i, batchSize, hiddenSize);
      StepOffsets(i + 1, batchSize, hiddenSize);
      StepAt(p, ln, r, i, hOff, hOutOff, vOff, wxOff, wx, u, h, v, tmpUhNorm, tmpUh);
    }

    /**
     * The forward pass over seqLength steps, step i reading h[i] and writing
     * h[i + 1]: the buffers end in Progress after seqLength steps, so h[0] is
     * untouched, h[t] is State(t) for every t up to seqLength, tmp_uh's row t is
     * U h[t], v's row t holds what step t saved when the kernel runs in training
     * (v is untouched otherwise), tmp_uh_norm holds the last step's normalised
     * product, and every other value is as it was.
     */
    method Run(p: Pointwise, ln: NormFn, seqLength: nat, wx: array<real>, u: array<real>, h: array<real>,
               v: array<real>, tmpUhNorm: array<real>, tmpUh: array<real>)
      requires RunBuffers(seqLength, wx, u, h, v, tmpUhNorm, tmpUh)
      modifies h, v, tmpUhNorm, tmpUh
      ensures Advanced(Inputs(p, ln, seqLength, old(u[..]), old(wx[..]), old(h[..])),
                       Buffers(old(h[..]), old(tmpUh[..]), old(v[..]), old(tmpUhNorm[..])), seqLength, h, tmpUh, v, tmpUhNorm)
    {
      ghost var r := Inputs(p, ln, seqLength, u[..], wx[..], h[..]);
      ghost var b0 := Buffers(h[..], tmpUh[..], v[..], tmpUhNorm[..]);
      ProgressAtStart(r, b0);
      for i: nat := 0 to seqLength
        invariant Advanced(r, b0, i, h, tmpUh, v, tmpUhNorm)
      {
        Iteration(p, ln, r, b0, i, wx, u, h, v, tmpUhNorm, tmpUh);
      }
    }

    /** The arrays' contents are in Progress after i steps. */
    ghost predicate Advanced(r: RunInputs, b0: Buffers, i: nat, h: array<real>, tmpUh: array<real>, v: array<real>, tmpUhNorm: array<real>)
      reads h, tmpUh, v, tmpUhNorm
    {
      Progress(r, b0, i, Buffers(h[..], tmpUh[..], v[..], tmpUhNorm[..]))
    }

    /** Run's loop is about to do step i: the buffers fit, r records the arguments and i steps are done. */
    ghost predicate Ready(p: Pointwise, ln: NormFn, r: RunInputs, b0: Buffers, i: nat, wx: array<real>, u: array<real>,
                          h: array<real>, v: array<real>, tmpUhNorm: array<real>, tmpUh: array<real>)
      reads this, wx, u, h, v, tmpUhNorm, tmpUh
    {
      var ready := RunBuffers(r.T, wx, u, h, v, tmpUhNorm, tmpUh) && i < r.T && Describes(r, p, ln, u, wx, h) &&
        Advanced(r, b0, i, h, tmpUh, v, tmpUhNorm);
      ready
    }

    /** One iteration of Run's loop keeps the buffers in Progress. */
    method Iteration(p: Pointwise, ln: NormFn, ghost r: RunInputs, ghost b0: Buffers, i: nat, wx: array<real>, u: array<real>,
                     h: array<real>, v: array<real>, tmpUhNorm: array<real>, tmpUh: array<real>)
      requires Ready(p, ln, r, b0, i, wx, u, h, v, tmpUhNorm, tmpUh)
      modifies h, v, tmpUhNorm, tmpUh
      ensures Advanced(r, b0, i + 1, h, tmpUh, v, tmpUhNorm)
    {
      ghost var b := Buffers(h[..], tmpUh[..], v[..], tmpUhNorm[..]);
      RunStep(p, ln, r, i, wx, u, h, v, tmpUhNorm, tmpUh);
      ProgressStep(r, b0, i, b, Buffers(h[..], tmpUh[..], v[..], tmpUhNorm[..]));
    }
  }
}
