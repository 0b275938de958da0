/**
 * Pointer slices over flat buffers. The drivers hand each step a pointer
 * `base + t * w` into a buffer of rows of width w; here a buffer is a sequence,
 * a row is a subsequence, and writing a step's result is splicing it in.
 */
module Slices {
  import opened Layout

  /** Row t of a buffer whose rows have width w: the values behind `base + t * w`. */
  function Row<T>(s: seq<T>, t: nat, w: nat): (r: seq<T>)
    requires Mul(t, w) + w <= |s|
    ensures |r| == w
    ensures forall j | 0 <= j < w :: r[j] == s[Mul(t, w) + j]
  {
    s[Mul(t, w)..Mul(t, w) + w]
  }

  /** The buffer s after the w values at offset off have been overwritten by r. */
  function Splice<T>(s: seq<T>, off: nat, r: seq<T>): (s': seq<T>)
    requires off + |r| <= |s|
    ensures |s'| == |s|
    ensures forall j | 0 <= j < |s| ::
      s'[j] == if off <= j < off + |r| then r[j - off] else s[j]
  {
    s[..off] + r + s[off + |r|..]
  }

  /** n zeros: a buffer's contents where a beta-0 GEMM never reads them. */
  function Zeros(n: nat): (r: seq<real>)
    ensures |r| == n
    decreases n
  {
    if n == 0 then [] else Zeros(n - 1) + [0.0]
  }

  /** The spliced window reads back as the row written into it. */
  lemma {:induction false} SpliceWindow<T>(s: seq<T>, off: nat, r: seq<T>)
    requires off + |r| <= |s|
    ensures Splice(s, off, r)[off..off + |r|] == r
  {
  }

  /** Splicing leaves everything from the end of the written range on as it was. */
  lemma {:induction false} SpliceKeepsSuffix<T>(s: seq<T>, off: nat, r: seq<T>, from: nat)
    requires off + |r| <= from <= |s|
    ensures Splice(s, off, r)[from..] == s[from..]
  {
  }

  /** Two sequences that agree from offset a on agree from every later offset on. */
  lemma {:induction false} SuffixFrom<T>(s: seq<T>, s0: seq<T>, a: nat, b: nat)
    requires |s| == |s0| && a <= b <= |s| && s[a..] == s0[a..]
    ensures s[b..] == s0[b..]
  {
    assert s[b..] == s[a..][b - a..];
    assert s0[b..] == s0[a..][b - a..];
  }

  /** A second splice of the same width at the same offset hides the first. */
  lemma {:induction false} SpliceTwice<T>(s: seq<T>, off: nat, r1: seq<T>, r2: seq<T>)
    requires off + |r1| <= |s| && |r2| == |r1|
    ensures Splice(Splice(s, off, r1), off, r2) == Splice(s, off, r2)
  {
  }

  /** Rows t < T of a buffer of T or more rows are in bounds. */
  lemma {:induction false} RowInBounds(T: nat, t: nat, w: nat)
    requires t < T
    ensures Mul(t, w) + w <= Mul(T, w)
    ensures Mul(t + 1, w) == Mul(t, w) + w
  {
    MulMonotone(t + 1, T, w);
  }

  /** Splicing a row into slot t leaves row t holding it. */
  lemma {:induction false} SpliceSameRow<T>(s: seq<T>, t: nat, w: nat, r: seq<T>)
    requires Mul(t, w) + w <= |s| && |r| == w
    ensures Row(Splice(s, Mul(t, w), r), t, w) == r
  {
    var s' := Splice(s, Mul(t, w), r);
    assert Row(s', t, w) == r;
  }

  /** Splicing a row into slot t leaves every other row u as it was. */
  lemma {:induction false} SpliceOtherRow<T>(s: seq<T>, t: nat, w: nat, r: seq<T>, u: nat)
    requires Mul(t, w) + w <= |s| && |r| == w && u != t && Mul(u, w) + w <= |s|
    ensures Row(Splice(s, Mul(t, w), r), u, w) == Row(s, u, w)
  {
    if u < t {
      MulMonotone(u + 1, t, w);
    } else {
      MulMonotone(t + 1, u, w);
    }
    var s' := Splice(s, Mul(t, w), r);
    forall j | 0 <= j < w
      ensures Row(s', u, w)[j] == Row(s, u, w)[j]
    {
    }
  }

  /** Splicing one row back into its own slot leaves nothing else changed. */
  lemma {:induction false} SpliceRow<T>(s: seq<T>, t: nat, w: nat, r: seq<T>)
    requires Mul(t, w) + w <= |s| && |r| == w
    ensures Row(Splice(s, Mul(t, w), r), t, w) == r
    ensures forall u: nat | u != t && Mul(u, w) + w <= |s| :: Row(Splice(s, Mul(t, w), r), u, w) == Row(s, u, w)
  {
    SpliceSameRow(s, t, w, r);
    forall u: nat | u != t && Mul(u, w) + w <= |s|
      ensures Row(Splice(s, Mul(t, w), r), u, w) == Row(s, u, w)
    {
      SpliceOtherRow(s, t, w, r, u);
    }
  }

  /** A buffer that agrees with another from offset off on agrees on every row at or past it. */
  lemma {:induction false} RowsOfSuffix<T>(s: seq<T>, s0: seq<T>, from: nat, w: nat)
    requires |s| == |s0| && Mul(from, w) <= |s| && s[Mul(from, w)..] == s0[Mul(from, w)..]
    ensures forall u: nat | from <= u && Mul(u, w) + w <= |s| :: Row(s, u, w) == Row(s0, u, w)
  {
    forall u: nat | from <= u && Mul(u, w) + w <= |s|
      ensures Row(s, u, w) == Row(s0, u, w)
    {
      MulMonotone(from, u, w);
      forall j | Mul(u, w) <= j < Mul(u, w) + w
        ensures s[j] == s0[j]
      {
        assert s[j] == s[Mul(from, w)..][j - Mul(from, w)];
      }
    }
  }

  /**
   * A buffer written row by row: its first |rows| rows (each w wide) hold rows, and
   * from there on it still agrees with s0, its contents before the writes.
   */
  predicate Written(s: seq<real>, s0: seq<real>, w: nat, rows: seq<seq<real>>)
  {
    |s| == |s0| && Mul(|rows|, w) <= |s| &&
    (forall t | 0 <= t < |rows| && Mul(t, w) + w <= |s| :: Row(s, t, w) == rows[t]) &&
    s[Mul(|rows|, w)..] == s0[Mul(|rows|, w)..]
  }

  /** Before any write, no row is written and the whole buffer is as it was. */
  lemma {:induction false} WrittenNothing(s0: seq<real>, w: nat)
    ensures Written(s0, s0, w, [])
  {
    assert Mul(0, w) == 0;
  }

  /** Every written row lies in the buffer and holds its value. */
  lemma {:induction false} WrittenRow(s: seq<real>, s0: seq<real>, w: nat, rows: seq<seq<real>>, t: nat)
    requires Written(s, s0, w, rows) && t < |rows|
    ensures Mul(t, w) + w <= |s| && Row(s, t, w) == rows[t]
  {
    RowInBounds(|rows|, t, w);
  }

  /** A sequence that agrees with rows on its first |rows| elements and ends in x is rows + [x]. */
  lemma {:induction false} Snoc(rows: seq<seq<real>>, rows': seq<seq<real>>, x: seq<real>)
    requires |rows'| == |rows| + 1 && rows'[|rows|] == x
    requires forall t | 0 <= t < |rows| :: rows'[t] == rows[t]
    ensures rows' == rows + [x]
  {
    assert forall t | 0 <= t < |rows'| :: rows'[t] == (rows + [x])[t];
  }

  /** Splicing x into the next row extends the written rows by x. */
  lemma {:induction false} WrittenSplice(s: seq<real>, s0: seq<real>, w: nat, rows: seq<seq<real>>, x: seq<real>)
    requires Written(s, s0, w, rows) && |x| == w && Mul(|rows|, w) + w <= |s|
    ensures Written(Splice(s, Mul(|rows|, w), x), s0, w, rows + [x])
  {
    var n := |rows|;
    var s' := Splice(s, Mul(n, w), x);
    RowInBounds(n + 1, n, w);
    SpliceRow(s, n, w, x);
    SpliceKeepsSuffix(s, Mul(n, w), x, Mul(n + 1, w));
    SuffixFrom(s, s0, Mul(n, w), Mul(n + 1, w));
    forall t | 0 <= t < n + 1 && Mul(t, w) + w <= |s'|
      ensures Row(s', t, w) == (rows + [x])[t]
    {
      if t < n {
        assert Row(s', t, w) == Row(s, t, w);
      }
    }
  }

  /** A row that still holds its old contents extends the written rows by those contents. */
  lemma {:induction false} WrittenKept(s: seq<real>, s0: seq<real>, w: nat, rows: seq<seq<real>>)
    requires Written(s, s0, w, rows) && Mul(|rows|, w) + w <= |s|
    ensures Written(s, s0, w, rows + [Row(s0, |rows|, w)])
  {
    var n := |rows|;
    RowInBounds(n + 1, n, w);
    RowsOfSuffix(s, s0, n, w);
    SuffixFrom(s, s0, Mul(n, w), Mul(n + 1, w));
    forall t | 0 <= t < n + 1 && Mul(t, w) + w <= |s|
      ensures Row(s, t, w) == (rows + [Row(s0, n, w)])[t]
    {
    }
  }

  /**
   * A buffer written row by row from its last row down: rows from..|rows|-1 hold
   * their values in rows, and below row from and from row |rows| on it still
   * agrees with s0, its contents before the writes.
   */
  predicate WrittenFrom(s: seq<real>, s0: seq<real>, w: nat, from: nat, rows: seq<seq<real>>)
  {
    |s| == |s0| && from <= |rows| && Mul(|rows|, w) <= |s| && Mul(from, w) <= Mul(|rows|, w) &&
    (forall t | from <= t < |rows| && Mul(t, w) + w <= |s| :: Row(s, t, w) == rows[t]) &&
    s[..Mul(from, w)] == s0[..Mul(from, w)] && s[Mul(|rows|, w)..] == s0[Mul(|rows|, w)..]
  }

  /** Before any write, no row is written and the whole buffer is as it was. */
  lemma {:induction false} WrittenFromNothing(s0: seq<real>, w: nat, rows: seq<seq<real>>)
    requires Mul(|rows|, w) <= |s0|
    ensures WrittenFrom(s0, s0, w, |rows|, rows)
  {
  }

  /** Splicing rows[t] into row t == from - 1 extends the written rows down to t. */
  lemma {:induction false} WrittenFromSplice(s: seq<real>, s0: seq<real>, w: nat, from: nat, rows: seq<seq<real>>, t: nat)
    requires WrittenFrom(s, s0, w, from, rows) && 0 < from && t == from - 1 && |rows[t]| == w
    ensures Mul(t, w) + w <= |s|
    ensures WrittenFrom(Splice(s, Mul(t, w), rows[t]), s0, w, t, rows)
  {
    var n := |rows|;
    RowInBounds(from, t, w);
    MulMonotone(t, n, w);
    var s' := Splice(s, Mul(t, w), rows[t]);
    SpliceRow(s, t, w, rows[t]);
    SpliceKeepsSuffix(s, Mul(t, w), rows[t], Mul(n, w));
    assert s'[..Mul(t, w)] == s[..Mul(t, w)];
    assert s[..Mul(t, w)] == s[..Mul(from, w)][..Mul(t, w)];
    assert s0[..Mul(t, w)] == s0[..Mul(from, w)][..Mul(t, w)];
    forall u | t <= u < n && Mul(u, w) + w <= |s'|
      ensures Row(s', u, w) == rows[u]
    {
      if u != t {
        assert Row(s', u, w) == Row(s, u, w);
      }
    }
  }

  /** A row below the written ones still holds its old contents. */
  lemma {:induction false} WrittenFromBelow(s: seq<real>, s0: seq<real>, w: nat, from: nat, rows: seq<seq<real>>, t: nat)
    requires WrittenFrom(s, s0, w, from, rows) && t < from
    ensures Mul(t, w) + w <= |s| && Row(s, t, w) == Row(s0, t, w)
  {
    RowInBounds(from, t, w);
    assert Row(s, t, w) == s[..Mul(from, w)][Mul(t, w)..Mul(t, w) + w];
    assert Row(s0, t, w) == s0[..Mul(from, w)][Mul(t, w)..Mul(t, w) + w];
  }

  /** Writes r into the buffer at offset off, as a library call filling an output slice does. */
  method Store(a: array<real>, off: nat, r: seq<real>)
    requires off + |r| <= a.Length
    modifies a
    ensures a[..] == Splice(old(a[..]), off, r)
  {
    forall j | 0 <= j < |r| {
      a[off + j] := r[j];
    }
  }

  /**
   * Progress of a kernel launch run as a sequential loop over (col, row), col outer:
   * every slot of a thread already visited holds its final value from `full`,
   * every other slot still holds its value a0 from before the launch, and nothing
   * outside the step's slice has changed.
   */
  ghost predicate Filled(k: nat, N: nat, H: nat, a: seq<real>, a0: seq<real>, off: nat, full: seq<real>, col: nat, row: nat)
  {
    var filled := |a| == |a0| && off + Size(k, N, H) <= |a0| && |full| == Size(k, N, H) &&
      (IndexBounds(k, N, H);
       (forall c: nat, r: nat, g: nat | c < N && r < H && g < k ::
          a[off + Index(k, H, Thread(c, r), g)] ==
            if c < col || (c == col && r < row) then full[Index(k, H, Thread(c, r), g)] else a0[off + Index(k, H, Thread(c, r), g)])
       && (forall q | 0 <= q < |a| && !(off <= q < off + Size(k, N, H)) :: a[q] == a0[q]));
    filled
  }

  lemma {:induction false} FilledStart(k: nat, N: nat, H: nat, a0: seq<real>, off: nat, full: seq<real>)
    requires off + Size(k, N, H) <= |a0| && |full| == Size(k, N, H)
    ensures Filled(k, N, H, a0, a0, off, full, 0, 0)
  {
  }

  /** Writing the k slots of in-range thread (col, row) advances the launch by one thread. */
  lemma {:induction false} FilledAfterThread(k: nat, N: nat, H: nat, a: seq<real>, a': seq<real>, a0: seq<real>, off: nat,
                          full: seq<real>, col: nat, row: nat)
    requires |a| == |a0| == |a'| && off + Size(k, N, H) <= |a0| && |full| == Size(k, N, H)
    requires Filled(k, N, H, a, a0, off, full, col, row) && col < N && row < H
    requires forall g: nat | g < k :: Index(k, H, Thread(col, row), g) < Size(k, N, H) &&
               a'[off + Index(k, H, Thread(col, row), g)] == full[Index(k, H, Thread(col, row), g)]
    requires forall q | 0 <= q < |a| && (forall g: nat | g < k :: q != off + Index(k, H, Thread(col, row), g)) ::
               a'[q] == a[q]
    ensures Filled(k, N, H, a', a0, off, full, col, row + 1)
  {
    IndexBounds(k, N, H);
    forall c: nat, r: nat, g: nat | c < N && r < H && g < k && (c != col || r != row)
      ensures a'[off + Index(k, H, Thread(c, r), g)] == a[off + Index(k, H, Thread(c, r), g)]
    {
      forall g': nat | g' < k
        ensures off + Index(k, H, Thread(c, r), g) != off + Index(k, H, Thread(col, row), g')
      {
        IndexInjective(k, H, c, r, g, col, row, g');
      }
    }
    forall q | 0 <= q < |a| && !(off <= q < off + Size(k, N, H))
      ensures a'[q] == a[q]
    {
      forall g: nat | g < k
        ensures q != off + Index(k, H, Thread(col, row), g)
      {
        IndexBound(k, N, H, col, row, g);
      }
    }
  }

  /** A thread that writes its one slot of a k = 1 buffer. */
  lemma {:induction false} FilledAfterWrite1(N: nat, H: nat, a: seq<real>, a0: seq<real>, off: nat, full: seq<real>, col: nat, row: nat)
    requires |a| == |a0| && off + Size(1, N, H) <= |a0| && |full| == Size(1, N, H)
    requires Filled(1, N, H, a, a0, off, full, col, row) && col < N && row < H
    ensures Index(1, H, Thread(col, row), 0) < Size(1, N, H)
    ensures Filled(1, N, H, a[off + Index(1, H, Thread(col, row), 0) := full[Index(1, H, Thread(col, row), 0)]], a0, off, full, col, row + 1)
  {
    IndexBound(1, N, H, col, row, 0);
    var a' := a[off + Index(1, H, Thread(col, row), 0) := full[Index(1, H, Thread(col, row), 0)]];
    FilledAfterThread(1, N, H, a, a', a0, off, full, col, row);
  }

  /** A thread that writes block 1 and then block 0 of a k = 2 buffer. */
  lemma {:induction false} FilledAfterWrite2(N: nat, H: nat, a: seq<real>, a0: seq<real>, off: nat, full: seq<real>, col: nat, row: nat)
    requires |a| == |a0| && off + Size(2, N, H) <= |a0| && |full| == Size(2, N, H)
    requires Filled(2, N, H, a, a0, off, full, col, row) && col < N && row < H
    ensures Index(2, H, Thread(col, row), 0) < Size(2, N, H) && Index(2, H, Thread(col, row), 1) < Size(2, N, H)
    ensures Filled(2, N, H, a[off + Index(2, H, Thread(col, row), 1) := full[Index(2, H, Thread(col, row), 1)]]
                             [off + Index(2, H, Thread(col, row), 0) := full[Index(2, H, Thread(col, row), 0)]], a0, off, full, col, row + 1)
  {
    IndexBound(2, N, H, col, row, 0);
    IndexBound(2, N, H, col, row, 1);
    var a' := a[off + Index(2, H, Thread(col, row), 1) := full[Index(2, H, Thread(col, row), 1)]]
               [off + Index(2, H, Thread(col, row), 0) := full[Index(2, H, Thread(col, row), 0)]];
    FilledAfterThread(2, N, H, a, a', a0, off, full, col, row);
  }

  /** The three writes of a k = 3 thread: its three slots hold `full`'s values, every other slot is as it was. */
  lemma {:induction false} ThreadWrites3(N: nat, H: nat, a: seq<real>, a': seq<real>, off: nat, full: seq<real>, col: nat, row: nat)
    requires off + Size(3, N, H) <= |a| && |full| == Size(3, N, H) && col < N && row < H
    requires Index(3, H, Thread(col, row), 0) < Size(3, N, H) && Index(3, H, Thread(col, row), 1) < Size(3, N, H)
    requires Index(3, H, Thread(col, row), 2) < Size(3, N, H)
    requires a' == a[off + Index(3, H, Thread(col, row), 1) := full[Index(3, H, Thread(col, row), 1)]]
             [off + Index(3, H, Thread(col, row), 0) := full[Index(3, H, Thread(col, row), 0)]]
             [off + Index(3, H, Thread(col, row), 2) := full[Index(3, H, Thread(col, row), 2)]]
    ensures forall g: nat | g < 3 :: Index(3, H, Thread(col, row), g) < Size(3, N, H) &&
              a'[off + Index(3, H, Thread(col, row), g)] == full[Index(3, H, Thread(col, row), g)]
    ensures forall q | 0 <= q < |a| && (forall g: nat | g < 3 :: q != off + Index(3, H, Thread(col, row), g)) ::
              a'[q] == a[q]
  {
    var t := Thread(col, row);
    IndexInjective(3, H, col, row, 0, col, row, 1);
    IndexInjective(3, H, col, row, 0, col, row, 2);
    IndexInjective(3, H, col, row, 1, col, row, 2);
    forall g: nat | g < 3
      ensures Index(3, H, t, g) < Size(3, N, H) && a'[off + Index(3, H, t, g)] == full[Index(3, H, t, g)]
    {
      assert g == 0 || g == 1 || g == 2;
    }
    forall q | 0 <= q < |a| && (forall g: nat | g < 3 :: q != off + Index(3, H, t, g))
      ensures a'[q] == a[q]
    {
      assert q != off + Index(3, H, t, 0) && q != off + Index(3, H, t, 1) && q != off + Index(3, H, t, 2);
    }
  }

  /** A thread that writes block 1, then 0, then 2 of a k = 3 buffer. */
  lemma {:induction false} FilledAfterWrite3(N: nat, H: nat, a: seq<real>, a0: seq<real>, off: nat, full: seq<real>, col: nat, row: nat)
    requires |a| == |a0| && off + Size(3, N, H) <= |a0| && |full| == Size(3, N, H)
    requires Filled(3, N, H, a, a0, off, full, col, row) && col < N && row < H
    ensures Index(3, H, Thread(col, row), 0) < Size(3, N, H) && Index(3, H, Thread(col, row), 1) < Size(3, N, H)
    ensures Index(3, H, Thread(col, row), 2) < Size(3, N, H)
    ensures Filled(3, N, H, a[off + Index(3, H, Thread(col, row), 1) := full[Index(3, H, Thread(col, row), 1)]]
                             [off + Index(3, H, Thread(col, row), 0) := full[Index(3, H, Thread(col, row), 0)]]
                             [off + Index(3, H, Thread(col, row), 2) := full[Index(3, H, Thread(col, row), 2)]], a0, off, full, col, row + 1)
  {
    IndexBound(3, N, H, col, row, 0);
    IndexBound(3, N, H, col, row, 1);
    IndexBound(3, N, H, col, row, 2);
    var a' := a[off + Index(3, H, Thread(col, row), 1) := full[Index(3, H, Thread(col, row), 1)]]
               [off + Index(3, H, Thread(col, row), 0) := full[Index(3, H, Thread(col, row), 0)]]
               [off + Index(3, H, Thread(col, row), 2) := full[Index(3, H, Thread(col, row), 2)]];
    ThreadWrites3(N, H, a, a', off, full, col, row);
    FilledAfterThread(3, N, H, a, a', a0, off, full, col, row);
  }

  /** A thread outside the H x N range writes nothing and leaves the progress where it was. */
  lemma {:induction false} FilledSkip(k: nat, N: nat, H: nat, a: seq<real>, a0: seq<real>, off: nat, full: seq<real>, col: nat, row: nat)
    requires |a| == |a0| && off + Size(k, N, H) <= |a0| && |full| == Size(k, N, H)
    requires Filled(k, N, H, a, a0, off, full, col, row) && !(col < N && row < H)
    ensures Filled(k, N, H, a, a0, off, full, col, row + 1)
  {
  }

  /** Finishing a column of threads that covers every row moves on to the next column. */
  lemma {:induction false} FilledNextCol(k: nat, N: nat, H: nat, a: seq<real>, a0: seq<real>, off: nat, full: seq<real>, col: nat, row: nat)
    requires |a| == |a0| && off + Size(k, N, H) <= |a0| && |full| == Size(k, N, H)
    requires Filled(k, N, H, a, a0, off, full, col, row) && H <= row
    ensures Filled(k, N, H, a, a0, off, full, col + 1, 0)
  {
  }

  /** A launch that has visited every in-range thread has written exactly `full` into its slice. */
  lemma {:induction false} FilledEnd(k: nat, N: nat, H: nat, a: seq<real>, a0: seq<real>, off: nat, full: seq<real>, col: nat)
    requires |a| == |a0| && off + Size(k, N, H) <= |a0| && |full| == Size(k, N, H)
    requires Filled(k, N, H, a, a0, off, full, col, 0) && N <= col
    ensures a == Splice(a0, off, full)
  {
    var s := Splice(a0, off, full);
    forall q | 0 <= q < |a|
      ensures a[q] == s[q]
    {
      if off <= q < off + Size(k, N, H) {
        var c, r, g := SlotOf(k, N, H, q - off);
      }
    }
  }
}
