/**
 * Index arithmetic shared by every kernel of the Li-GRU cell.
 *
 * A kernel thread is identified by `row` (the hidden unit, 0 <= row < H) and
 * `col` (the batch element, 0 <= col < N). Every per-step buffer is row-major
 * with batch elements outermost and holds `k` blocks of H values per batch
 * element: k = 1 for the N x H state buffers, k = 2 for the
 * [candidate, update] pre-activation buffers and k = 3 for the [a, z, hcand]
 * save buffer. Block `g` of thread (col, row) sits at col * (k * H) + row + g * H.
 *
 * Products of two run-time quantities (sizes, slots, pointer offsets) are
 * written with Mul, the product as repeated addition; MulIsProduct relates it
 * to `*`, and the other lemmas here state what the kernels need of it.
 */
module Layout {

  /** Largest value of the source's 32-bit `int` index variables. */
  const INT32_MAX: int := 0x7fff_ffff

  /** Block numbers inside the 2H-wide pre-activation buffers. */
  const CANDIDATE: nat := 0
  const UPDATE: nat := 1

  /** Block numbers inside the 3H-wide save buffer. */
  const SAVED_A: nat := 0
  const SAVED_Z: nat := 1
  const SAVED_HCAND: nat := 2

  /** a * b, as the sum of a copies of b. */
  function Mul(a: nat, b: nat): nat
  {
    if a == 0 then 0 else Mul(a - 1, b) + b
  }

  lemma {:induction false} MulIsProduct(a: nat, b: nat)
    ensures Mul(a, b) == a * b
  {
    if a > 0 {
      MulIsProduct(a - 1, b);
    }
  }

  lemma {:induction false} MulMonotone(a: nat, b: nat, w: nat)
    requires a <= b
    ensures Mul(a, w) <= Mul(b, w)
  {
    if a < b {
      MulMonotone(a, b - 1, w);
    }
  }

  lemma {:induction false} MulMonotoneRight(a: nat, b1: nat, b2: nat)
    requires b1 <= b2
    ensures Mul(a, b1) <= Mul(a, b2)
  {
    if a > 0 {
      MulMonotoneRight(a - 1, b1, b2);
    }
  }

  /** Mul distributes over a sum in its second factor. */
  lemma {:induction false} MulAdd(a: nat, b: nat, c: nat)
    ensures Mul(a, b + c) == Mul(a, b) + Mul(a, c)
  {
    if a > 0 {
      MulAdd(a - 1, b, c);
    }
  }

  lemma {:induction false} MulOne(a: nat)
    ensures Mul(a, 1) == a
  {
    if a > 0 {
      MulOne(a - 1);
    }
  }

  lemma {:induction false} MulZero(a: nat)
    ensures Mul(a, 0) == 0
  {
    if a > 0 {
      MulZero(a - 1);
    }
  }

  lemma {:induction false} MulComm(a: nat, b: nat)
    ensures Mul(a, b) == Mul(b, a)
  {
    if a > 0 {
      MulComm(a - 1, b);
      MulAdd(b, a - 1, 1);
      MulOne(b);
      assert a - 1 + 1 == a;
    } else {
      MulZero(b);
    }
  }

  /** Mul distributes over a sum in its first factor. */
  lemma {:induction false} MulAddLeft(a: nat, b: nat, c: nat)
    ensures Mul(a + b, c) == Mul(a, c) + Mul(b, c)
  {
    MulComm(a + b, c);
    MulAdd(c, a, b);
    MulComm(c, a);
    MulComm(c, b);
  }

  /** Mul is associative. */
  lemma {:induction false} MulAssoc(a: nat, b: nat, c: nat)
    ensures Mul(a, Mul(b, c)) == Mul(Mul(a, b), c)
  {
    if a > 0 {
      MulAssoc(a - 1, b, c);
      MulAddLeft(Mul(a - 1, b), b, c);
    }
  }

  /** c * w + x stays below n * w when x < w and c < n. */
  lemma {:induction false} BlockBound(w: nat, n: nat, c: nat, x: nat)
    requires x < w && c < n
    ensures Mul(c, w) + x < Mul(n, w)
  {
    MulMonotone(c + 1, n, w);
  }

  lemma {:induction false} BlockInjective(w: nat, c1: nat, x1: nat, c2: nat, x2: nat)
    requires x1 < w && x2 < w && Mul(c1, w) + x1 == Mul(c2, w) + x2
    ensures c1 == c2 && x1 == x2
  {
    if c1 < c2 {
      BlockBound(w, c2, c1, x1);
    } else if c2 < c1 {
      BlockBound(w, c1, c2, x2);
    }
  }

  /** Every q below n * w is c * w + x for a block c < n and an offset x < w. */
  lemma {:induction false} BlockOf(w: nat, n: nat, q: nat) returns (c: nat, x: nat)
    requires q < Mul(n, w)
    ensures c < n && x < w && q == Mul(c, w) + x
    decreases n
  {
    if q < Mul(n - 1, w) {
      c, x := BlockOf(w, n - 1, q);
    } else {
      c, x := n - 1, q - Mul(n - 1, w);
    }
  }

  /** A kernel thread: batch element `col`, hidden unit `row`. */
  datatype Thread = Thread(col: nat, row: nat)

  /** Slot of block `g` of thread (col, row) in a buffer with k blocks of H per batch element. */
  function Index(k: nat, H: nat, t: Thread, g: nat): nat
  {
    Mul(t.col, Mul(k, H)) + t.row + Mul(g, H)
  }

  /** Index is the kernels' `col * (hidden_dim * k) + row + g * hidden_dim`. */
  lemma {:induction false} IndexIsProduct(k: nat, H: nat, col: nat, row: nat, g: nat)
    ensures Index(k, H, Thread(col, row), g) == col * (H * k) + row + g * H
  {
    MulIsProduct(k, H);
    MulIsProduct(col, Mul(k, H));
    MulIsProduct(g, H);
  }

  /** Number of values in one step of such a buffer. */
  function Size(k: nat, N: nat, H: nat): nat
  {
    Mul(N, Mul(k, H))
  }

  /** The widths of one batch element's values in the three kinds of buffer. */
  lemma {:induction false} Widths(H: nat)
    ensures Mul(1, H) == H && Mul(2, H) == H + H && Mul(3, H) == H + H + H
  {
    assert Mul(1, H) == H;
    assert Mul(2, H) == Mul(1, H) + H;
  }

  /** The k blocks of H values of one batch element fill k * H slots. */
  lemma {:induction false} InBlocks(k: nat, H: nat, row: nat, g: nat)
    requires row < H && g < k
    ensures Mul(g, H) + row < Mul(k, H)
  {
    BlockBound(H, k, g, row);
  }

  /** Every slot of an in-range thread lies inside the step's buffer. */
  lemma {:induction false} IndexBound(k: nat, N: nat, H: nat, col: nat, row: nat, g: nat)
    requires col < N && row < H && g < k
    ensures Index(k, H, Thread(col, row), g) < Size(k, N, H)
  {
    InBlocks(k, H, row, g);
    BlockBound(Mul(k, H), N, col, Mul(g, H) + row);
  }

  lemma {:induction false} IndexBounds(k: nat, N: nat, H: nat)
    ensures forall col: nat, row: nat, g: nat | col < N && row < H && g < k ::
      Index(k, H, Thread(col, row), g) < Size(k, N, H)
  {
    forall col: nat, row: nat, g: nat | col < N && row < H && g < k
      ensures Index(k, H, Thread(col, row), g) < Size(k, N, H)
    {
      IndexBound(k, N, H, col, row, g);
    }
  }

  /**
   * Distinct (col, row, g) triples of in-range threads name distinct slots: no two
   * threads of a launch write the same cell, and one thread's k slots are distinct.
   */
  lemma {:induction false} IndexInjective(k: nat, H: nat, c1: nat, r1: nat, g1: nat, c2: nat, r2: nat, g2: nat)
    requires r1 < H && g1 < k && r2 < H && g2 < k
    ensures Index(k, H, Thread(c1, r1), g1) == Index(k, H, Thread(c2, r2), g2) <==> c1 == c2 && r1 == r2 && g1 == g2
  {
    if Index(k, H, Thread(c1, r1), g1) == Index(k, H, Thread(c2, r2), g2) {
      InBlocks(k, H, r1, g1);
      InBlocks(k, H, r2, g2);
      BlockInjective(Mul(k, H), c1, Mul(g1, H) + r1, c2, Mul(g2, H) + r2);
      BlockInjective(H, g1, r1, g2, r2);
    }
  }

  /** Every slot of a step's buffer is the slot of an in-range (col, row, g). */
  lemma {:induction false} SlotOf(k: nat, N: nat, H: nat, q: nat) returns (col: nat, row: nat, g: nat)
    requires q < Size(k, N, H)
    ensures col < N && row < H && g < k && Index(k, H, Thread(col, row), g) == q
  {
    var x;
    col, x := BlockOf(Mul(k, H), N, q);
    g, row := BlockOf(H, k, x);
  }

  /**
   * The step buffer a launch fills: N batch elements of k blocks of H values,
   * slot Index(k, H, Thread(col, row), g) holding f(col, row, g). It is built one batch
   * element at a time, and each element one block at a time.
   */
  function Tabulate<T>(k: nat, N: nat, H: nat, f: (nat, nat, nat) -> T): (r: seq<T>)
    ensures |r| == Size(k, N, H)
    decreases N
  {
    if N == 0 then [] else Tabulate(k, N - 1, H, f) + Blocks(H, N - 1, f, k)
  }

  /** The first `gates` blocks of batch element col. */
  function Blocks<T>(H: nat, col: nat, f: (nat, nat, nat) -> T, gates: nat): (r: seq<T>)
    ensures |r| == Mul(gates, H)
    decreases gates
  {
    if gates == 0 then []
    else Blocks(H, col, f, gates - 1) + Cells(col, f, gates - 1, H)
  }

  /** Block g of batch element col: the values of hidden units 0..rows-1. */
  function Cells<T>(col: nat, f: (nat, nat, nat) -> T, g: nat, rows: nat): (r: seq<T>)
    ensures |r| == rows
    decreases rows
  {
    if rows == 0 then [] else Cells(col, f, g, rows - 1) + [f(col, rows - 1, g)]
  }

  lemma {:induction false} CellsAt<T>(col: nat, f: (nat, nat, nat) -> T, g: nat, rows: nat, row: nat)
    requires row < rows
    ensures Cells(col, f, g, rows)[row] == f(col, row, g)
    decreases rows
  {
    if row < rows - 1 {
      CellsAt(col, f, g, rows - 1, row);
    }
  }

  lemma {:induction false} BlocksAt<T>(H: nat, col: nat, f: (nat, nat, nat) -> T, gates: nat, row: nat, g: nat)
    requires row < H && g < gates
    ensures Mul(g, H) + row < Mul(gates, H)
    ensures Blocks(H, col, f, gates)[Mul(g, H) + row] == f(col, row, g)
    decreases gates
  {
    BlockBound(H, gates, g, row);
    if g < gates - 1 {
      BlocksAt(H, col, f, gates - 1, row, g);
    } else {
      CellsAt(col, f, g, H, row);
    }
  }

  /** Slot Index(k, H, Thread(col, row), g) of the tabulated buffer holds f(col, row, g). */
  lemma {:induction false} TabulateAt<T>(k: nat, N: nat, H: nat, f: (nat, nat, nat) -> T, col: nat, row: nat, g: nat)
    requires col < N && row < H && g < k
    ensures Index(k, H, Thread(col, row), g) < Size(k, N, H)
    ensures Tabulate(k, N, H, f)[Index(k, H, Thread(col, row), g)] == f(col, row, g)
    decreases N
  {
    IndexBound(k, N, H, col, row, g);
    if col < N - 1 {
      TabulateAt(k, N - 1, H, f, col, row, g);
    } else {
      BlocksAt(H, col, f, k, row, g);
    }
  }

  /** Grid width in blocks of `blockDim.x = 32` along the hidden dimension: ceil(H / 32). */
  function GridX(H: nat): nat
  {
    (H + 32 - 1) / 32
  }

  /** Grid height in blocks of `blockDim.y = 16` along the batch dimension: ceil(N / 16). */
  function GridY(N: nat): nat
  {
    (N + 16 - 1) / 16
  }

  /** `blockDim.x * blockIdx.x + threadIdx.x` and its y counterpart. */
  function ThreadCoord(blockDim: nat, blockIdx: nat, threadIdx: nat): nat
  {
    Mul(blockIdx, blockDim) + threadIdx
  }

  /**
   * The ceil-div grid reaches every hidden unit and every batch element, and its
   * last block row and block column are not entirely out of range.
   */
  lemma {:induction false} GridCovers(N: nat, H: nat)
    ensures H <= GridX(H) * 32 && N <= GridY(N) * 16
    ensures H > 0 ==> (GridX(H) - 1) * 32 < H
    ensures N > 0 ==> (GridY(N) - 1) * 16 < N
  {
  }

  /**
   * The threads of a launch are exactly the coordinates below grid * blockDim:
   * each such coordinate comes from one (blockIdx, threadIdx) pair.
   */
  lemma {:induction false} ThreadCoordBijective(blockDim: nat, grid: nat, coord: nat) returns (b: nat, t: nat)
    requires coord < Mul(grid, blockDim)
    ensures b < grid && t < blockDim && ThreadCoord(blockDim, b, t) == coord
    ensures forall b': nat, t': nat | t' < blockDim && ThreadCoord(blockDim, b', t') == coord :: b' == b && t' == t
  {
    b, t := BlockOf(blockDim, grid, coord);
    forall b': nat, t': nat | t' < blockDim && ThreadCoord(blockDim, b', t') == coord
      ensures b' == b && t' == t
    {
      BlockInjective(blockDim, b', t', b, t);
    }
  }

  /**
   * With 3 * T * N * H within the 32-bit range, every offset the drivers compute
   * (`i * NH * 3`, `i * NH * 2`, `(i + 1) * NH`, `batch_size * time_step`) and every
   * slot a kernel computes fits the source's `int` type, so the unbounded
   * integers of this model agree with the source's arithmetic.
   */
  lemma {:induction false} OffsetsFitInt32(T: nat, N: nat, H: nat, i: nat, k: nat, col: nat, row: nat, g: nat)
    requires Mul(T, Mul(N, H)) * 3 <= INT32_MAX
    requires i < T && k <= 3 && col < N && row < H && g < k
    ensures Mul(i, Mul(N, H)) * 3 + Index(k, H, Thread(col, row), g) <= INT32_MAX
    ensures Mul(i + 1, Mul(N, H)) <= INT32_MAX
    ensures Mul(N, T) <= INT32_MAX
  {
    var NH := Mul(N, H);
    IndexBound(k, N, H, col, row, g);
    MulMonotone(k, 3, H);
    MulMonotoneRight(N, Mul(k, H), Mul(3, H));
    Widths(H);
    MulAdd(N, H + H, H);
    MulAdd(N, H, H);
    MulMonotone(i + 1, T, NH);
    MulOne(N);
    MulMonotoneRight(N, 1, H);
    MulComm(N, T);
    MulMonotoneRight(T, N, NH);
  }

  /**
   * The drivers' pointer offsets `i * NH`, `i * NH * 2` and `i * NH * 3` (NH being
   * N * H) are the starts of row i of a buffer of one-, two- and three-block steps.
   */
  lemma {:induction false} StepOffsets(i: nat, N: nat, H: nat)
    ensures Mul(i, Mul(N, H)) == Mul(i, Size(1, N, H))
    ensures Mul(i, Mul(N, H)) * 2 == Mul(i, Size(2, N, H))
    ensures Mul(i, Mul(N, H)) * 3 == Mul(i, Size(3, N, H))
  {
    var NH := Mul(N, H);
    Widths(H);
    MulOne(N);
    MulAdd(N, H, H);
    MulAdd(N, H + H, H);
    assert Size(2, N, H) == NH + NH;
    assert Size(3, N, H) == NH + NH + NH;
    MulAdd(i, NH, NH);
    MulAdd(i, NH + NH, NH);
  }
}
