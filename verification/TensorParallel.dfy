/** Tensor parallelism: weights cut by rows for the first matrices and by columns for the second
    one, each node computing its part, and the star all-reduce that adds the parts up. */
module TensorParallel {
  import opened Arithmetic

  // A quantisation block: the unit in which weights are copied, a run of values of one row.
  type Block = seq<int>

  // ---------------------------------------------------------------------------
  // Cutting the weights
  // ---------------------------------------------------------------------------

  /** A matrix of d rows with n blocks each, row after row. */
  predicate IsMatrix(w: seq<Block>, d: nat, n: nat) {
    |w| == d * n
  }

  lemma InMatrix(i: nat, j: nat, d: nat, n: nat)
    requires i < d && j < n
    ensures 0 <= i * n + j < d * n
  {
    ProductMonotone(i + 1, d, n);
    NextMultiple(i, n);
    ProductMonotone(0, i, n);
  }

  function At(w: seq<Block>, d: nat, n: nat, i: nat, j: nat): Block
    requires IsMatrix(w, d, n) && i < d && j < n
  {
    InMatrix(i, j, d, n);
    w[i * n + j]
  }

  // What SplitRows and SplitColumns leave in a slice.
  ghost predicate IsRowSlice(w: seq<Block>, slice: seq<Block>, d: nat, n: nat, d0: nat, r: nat) {
    && IsMatrix(w, d, n) && IsMatrix(slice, d0, n) && d0 * r + d0 <= d
    && forall i, j :: 0 <= i < d0 && 0 <= j < n ==> At(slice, d0, n, i, j) == At(w, d, n, d0 * r + i, j)
  }

  ghost predicate IsColumnSlice(w: seq<Block>, slice: seq<Block>, d: nat, n: nat, n0: nat, r: nat) {
    && IsMatrix(w, d, n) && IsMatrix(slice, d, n0) && n0 * r + n0 <= n
    && forall i, j :: 0 <= i < d && 0 <= j < n0 ==> At(slice, d, n0, i, j) == At(w, d, n, i, n0 * r + j)
  }

  /** The slice of node r consists of rows [r * d0, (r + 1) * d0). */
  method SplitRows(w: array<Block>, d: nat, n: nat, nodes: nat, r: nat, slice: array<Block>) returns (copied: nat)
    requires nodes > 0 && d % nodes == 0 && r < nodes
    requires IsMatrix(w[..], d, n) && slice.Length == d / nodes * n && slice != w
    modifies slice
    ensures IsMatrix(slice[..], d / nodes, n) && copied == slice.Length
    ensures IsRowSlice(w[..], slice[..], d, n, d / nodes, r)
  {
    var d0 := d / nodes;
    var offset := d0 * r * n;
    copied := 0;
    SliceInside(d0, nodes, r);
    RowOffset(d0, r, n, d);
    var i := 0;
    while i < d0
      invariant 0 <= i <= d0 && copied == i * n <= d0 * n
      invariant forall q :: 0 <= q < i * n ==> slice[q] == w[offset + q]
    {
      ProductMonotone(i + 1, d0, n);
      NextMultiple(i, n);
      var j := 0;
      while j < n
        invariant 0 <= j <= n && copied == i * n + j <= d0 * n
        invariant forall q :: 0 <= q < i * n + j ==> slice[q] == w[offset + q]
      {
        var o := i * n + j;
        slice[o] := w[offset + o];
        copied := copied + 1;
        j := j + 1;
      }
      i := i + 1;
    }
    forall i, j | 0 <= i < d0 && 0 <= j < n
      ensures At(slice[..], d0, n, i, j) == At(w[..], d, n, d0 * r + i, j)
    {
      RowCell(w[..], slice[..], d, n, d0, r, i, j, offset);
    }
  }

  lemma SliceInside(d0: nat, nodes: nat, r: nat)
    requires r < nodes
    ensures d0 * r + d0 <= d0 * nodes
  {
    ProductMonotone(r + 1, nodes, d0);
    NextMultiple(r, d0);
  }

  lemma RowOffset(d0: nat, r: nat, n: nat, d: nat)
    requires d0 * r + d0 <= d
    ensures 0 <= d0 * r * n && d0 * r * n + d0 * n <= d * n
  {
    ProductMonotone(d0 * r + d0, d, n);
    assert (d0 * r + d0) * n == d0 * r * n + d0 * n;
    ProductMonotone(0, d0 * r, n);
  }

  lemma RowCell(w: seq<Block>, slice: seq<Block>, d: nat, n: nat, d0: nat, r: nat, i: nat, j: nat, offset: nat)
    requires IsMatrix(w, d, n) && IsMatrix(slice, d0, n) && d0 * r + d0 <= d && i < d0 && j < n
    requires offset == d0 * r * n && offset + d0 * n <= |w|
    requires forall q :: 0 <= q < |slice| ==> slice[q] == w[offset + q]
    ensures d0 * r + i < d && At(slice, d0, n, i, j) == At(w, d, n, d0 * r + i, j)
  {
    InMatrix(i, j, d0, n);
    assert (d0 * r + i) * n == d0 * r * n + i * n;
    assert slice[i * n + j] == w[offset + (i * n + j)];
  }

  method CopyBlocks(dst: array<Block>, to: nat, src: array<Block>, from: nat, len: nat)
    requires dst != src && to + len <= dst.Length && from + len <= src.Length
    modifies dst
    ensures dst[to..to + len] == src[from..from + len]
    ensures dst[..to] == old(dst[..to]) && dst[to + len..] == old(dst[to + len..])
  {
    forall k | 0 <= k < len {
      dst[to + k] := src[from + k];
    }
  }

  // Row q of the slice is the node's part of row q.
  predicate RowMatches(w: seq<Block>, slice: seq<Block>, n: nat, n0: nat, offset: nat, q: nat) {
    && 0 <= q * n0 && q * n0 + n0 <= |slice| && 0 <= q * n && q * n + offset + n0 <= |w|
    && slice[q * n0..q * n0 + n0] == w[q * n + offset..q * n + offset + n0]
  }

  /** The slice of node r consists of block columns [r * n0, (r + 1) * n0) of every row. */
  method SplitColumns(w: array<Block>, d: nat, n: nat, nodes: nat, r: nat, slice: array<Block>) returns (copied: nat)
    requires nodes > 0 && n % nodes == 0 && r < nodes
    requires IsMatrix(w[..], d, n) && slice.Length == d * (n / nodes) && slice != w
    modifies slice
    ensures IsMatrix(slice[..], d, n / nodes) && copied == slice.Length
    ensures IsColumnSlice(w[..], slice[..], d, n, n / nodes, r)
  {
    hide RowMatches, At;
    var n0 := n / nodes;
    var columnOffset := n0 * r;
    copied := 0;
    SliceInside(n0, nodes, r);
    var i := 0;
    while i < d
      invariant 0 <= i <= d && copied == i * n0 <= d * n0
      invariant forall q :: 0 <= q < i ==> RowMatches(w[..], slice[..], n, n0, columnOffset, q)
    {
      RowInside(i, d, n0, n, columnOffset);
      ghost var before := slice[..];
      CopyBlocks(slice, i * n0, w, i * n + columnOffset, n0);
      RowCopied(w[..], slice[..], n, n0, columnOffset, i);
      forall q | 0 <= q < i
        ensures RowMatches(w[..], slice[..], n, n0, columnOffset, q)
      {
        RowKept(w[..], before, slice[..], n, n0, columnOffset, q, i);
      }
      copied := copied + n0;
      i := i + 1;
    }
    forall i, j | 0 <= i < d && 0 <= j < n0
      ensures At(slice[..], d, n0, i, j) == At(w[..], d, n, i, n0 * r + j)
    {
      ColumnCell(w[..], slice[..], d, n, n0, n0 * r, i, j);
    }
  }

  lemma RowInside(i: nat, d: nat, n0: nat, n: nat, offset: nat)
    requires i < d && offset + n0 <= n
    ensures 0 <= i * n0 && i * n0 + n0 <= d * n0 && (i + 1) * n0 == i * n0 + n0
    ensures 0 <= i * n && i * n + offset + n0 <= d * n
  {
    ProductMonotone(i + 1, d, n0);
    NextMultiple(i, n0);
    ProductMonotone(i + 1, d, n);
    NextMultiple(i, n);
    ProductMonotone(0, i, n);
    ProductMonotone(0, i, n0);
  }

  lemma RowCopied(w: seq<Block>, slice: seq<Block>, n: nat, n0: nat, offset: nat, q: nat)
    requires 0 <= q * n0 && q * n0 + n0 <= |slice| && 0 <= q * n && q * n + offset + n0 <= |w|
    requires slice[q * n0..q * n0 + n0] == w[q * n + offset..q * n + offset + n0]
    ensures RowMatches(w, slice, n, n0, offset, q)
  {
  }

  lemma RowKept(w: seq<Block>, before: seq<Block>, after: seq<Block>, n: nat, n0: nat, offset: nat, q: nat, i: nat)
    requires RowMatches(w, before, n, n0, offset, q) && q < i && 0 <= i * n0 <= |before| == |after|
    requires after[..i * n0] == before[..i * n0]
    ensures RowMatches(w, after, n, n0, offset, q)
  {
    ProductMonotone(q + 1, i, n0);
    NextMultiple(q, n0);
    var a, b := q * n0, q * n0 + n0;
    assert after[a..b] == after[..i * n0][a..b] && before[a..b] == before[..i * n0][a..b];
  }

  lemma ColumnCell(w: seq<Block>, slice: seq<Block>, d: nat, n: nat, n0: nat, offset: nat, i: nat, j: nat)
    requires IsMatrix(w, d, n) && IsMatrix(slice, d, n0) && offset + n0 <= n && i < d && j < n0
    requires RowMatches(w, slice, n, n0, offset, i)
    ensures At(slice, d, n0, i, j) == At(w, d, n, i, offset + j)
  {
    InMatrix(i, j, d, n0);
    InMatrix(i, offset + j, d, n);
    assert slice[i * n0..i * n0 + n0][j] == slice[i * n0 + j];
    assert w[i * n + offset..i * n + offset + n0][j] == w[i * n + (offset + j)];
  }

  // Position x is the y-th of node r's part.
  predicate Located(part: nat, x: nat, r: nat, y: nat) {
    y < part && x == part * r + y
  }

  /** Every row (and likewise every block column) of a matrix is in exactly one node's slice. */
  lemma OneSliceEach(len: nat, nodes: nat, x: nat) returns (r: nat, y: nat)
    requires nodes > 0 && len % nodes == 0 && x < len
    ensures r < nodes && Located(len / nodes, x, r, y)
    ensures forall q: nat, z: nat :: Located(len / nodes, x, q, z) ==> q == r && z == y
  {
    var part := len / nodes;
    EvenSplit(len, nodes);
    r, y := x / part, x % part;
    DivideBack(x, part);
    if r >= nodes {
      ProductMonotone(nodes, r, part);
    }
    forall q: nat, z: nat | Located(part, x, q, z)
      ensures q == r && z == y
    {
      QuotientUnique(x, part, q, z);
    }
  }

  lemma EvenSplit(len: nat, nodes: nat)
    requires nodes > 0 && len % nodes == 0
    ensures len == nodes * (len / nodes)
    ensures len > 0 ==> len / nodes > 0
  {
    if len / nodes == 0 {
      assert nodes * (len / nodes) == 0;
    }
  }

  lemma DivideBack(x: nat, d: nat)
    requires d > 0
    ensures x == x / d * d + x % d && x % d < d
    ensures Located(d, x, x / d, x % d)
  {
    assert x == d * (x / d) + x % d;
  }

  // ---------------------------------------------------------------------------
  // What the slices compute
  // ---------------------------------------------------------------------------

  type Matrix = (nat, nat) -> real
  type Vector = nat -> real

  function Sum(f: Vector, lo: nat, hi: nat): real
    decreases hi
  {
    if hi <= lo then 0.0 else Sum(f, lo, hi - 1) + f(hi - 1)
  }

  function Times(W: Matrix, x: Vector, n: nat): Vector {
    (i: nat) => Sum((k: nat) => W(i, k) * x(k), 0, n)
  }

  // The slices of the matrices as the values the blocks stand for.
  function RowsOf(W: Matrix, d0: nat, r: nat): Matrix {
    (i: nat, k: nat) => W(d0 * r + i, k)
  }

  function ColumnsOf(W: Matrix, n0: nat, r: nat): Matrix {
    (i: nat, k: nat) => W(i, n0 * r + k)
  }

  /** The values a matrix of blocks stands for: `dequant(block, j)` is the j-th of the `size`
      values of a block. */
  function Values(w: seq<Block>, d: nat, n: nat, size: nat, dequant: (Block, nat) -> real): Matrix
    requires IsMatrix(w, d, n) && size > 0
  {
    (i: nat, k: nat) => if i < d && k / size < n then dequant(At(w, d, n, i, k / size), k % size) else 0.0
  }

  // Value column n0 * size * r + k lies in block column n0 * r + k / size.
  lemma ShiftedColumn(n0: nat, size: nat, r: nat, k: nat)
    requires size > 0
    ensures (n0 * size * r + k) / size == n0 * r + k / size && (n0 * size * r + k) % size == k % size
  {
    DivideBack(k, size);
    var q := n0 * r + k / size;
    assert n0 * size * r == n0 * r * size;
    assert q * size == n0 * r * size + k / size * size;
    QuotientUnique(n0 * size * r + k, size, q, k % size);
    DivideBack(n0 * size * r + k, size);
  }

  /** Cutting the blocks cuts the values: the slices of a node stand for its rows, or its columns. */
  lemma RowSliceValues(w: seq<Block>, slice: seq<Block>, d: nat, n: nat, d0: nat, r: nat,
                       size: nat, dequant: (Block, nat) -> real, i: nat, k: nat)
    requires size > 0 && IsRowSlice(w, slice, d, n, d0, r) && i < d0 && k / size < n
    ensures Values(slice, d0, n, size, dequant)(i, k) == RowsOf(Values(w, d, n, size, dequant), d0, r)(i, k)
  {
    hide At;
    assert At(slice, d0, n, i, k / size) == At(w, d, n, d0 * r + i, k / size);
  }

  lemma ColumnSliceValues(w: seq<Block>, slice: seq<Block>, d: nat, n: nat, n0: nat, r: nat,
                          size: nat, dequant: (Block, nat) -> real, i: nat, k: nat)
    requires size > 0 && IsColumnSlice(w, slice, d, n, n0, r) && i < d && k / size < n0
    ensures Values(slice, d, n0, size, dequant)(i, k) == ColumnsOf(Values(w, d, n, size, dequant), n0 * size, r)(i, k)
  {
    hide At;
    ShiftedColumn(n0, size, r, k);
    assert At(slice, d, n0, i, k / size) == At(w, d, n, i, n0 * r + k / size);
  }

  /** The feed-forward block: two matrices side by side, joined elementwise (activation times
      gate), then a third one. */
  function Joined(f: (real, real) -> real, a: Vector, b: Vector): Vector {
    (i: nat) => f(a(i), b(i))
  }

  function FeedForward(W1: Matrix, W3: Matrix, W2: Matrix, f: (real, real) -> real, x: Vector, n: nat, h: nat): Vector {
    Times(W2, Joined(f, Times(W1, x, n), Times(W3, x, n)), h)
  }

  // The part that node r computes from its slices; h0 is its share of the hidden dimension.
  function NodePart(W1: Matrix, W3: Matrix, W2: Matrix, f: (real, real) -> real, x: Vector, n: nat, h0: nat, r: nat): Vector {
    FeedForward(RowsOf(W1, h0, r), RowsOf(W3, h0, r), ColumnsOf(W2, h0, r), f, x, n, h0)
  }

  lemma {:induction false} SumSplits(f: Vector, lo: nat, mid: nat, hi: nat)
    requires lo <= mid <= hi
    ensures Sum(f, lo, hi) == Sum(f, lo, mid) + Sum(f, mid, hi)
    decreases hi
  {
    if mid < hi {
      SumSplits(f, lo, mid, hi - 1);
    }
  }

  lemma {:induction false} SumShifts(f: Vector, g: Vector, start: nat, n: nat)
    requires forall k: nat :: k < n ==> g(k) == f(start + k)
    ensures Sum(g, 0, n) == Sum(f, start, start + n)
  {
    if n > 0 {
      SumShifts(f, g, start, n - 1);
      assert g(n - 1) == f(start + (n - 1));
    }
  }

  /** The hidden values of node r are the whole ones in its range. */
  lemma NodeHidden(W1: Matrix, W3: Matrix, f: (real, real) -> real, x: Vector, n: nat, h0: nat, r: nat, k: nat)
    ensures Joined(f, Times(RowsOf(W1, h0, r), x, n), Times(RowsOf(W3, h0, r), x, n))(k) ==
            Joined(f, Times(W1, x, n), Times(W3, x, n))(h0 * r + k)
  {
    SameRow(W1, x, n, h0, r, k);
    SameRow(W3, x, n, h0, r, k);
  }

  lemma SameRow(W: Matrix, x: Vector, n: nat, h0: nat, r: nat, k: nat)
    ensures Times(RowsOf(W, h0, r), x, n)(k) == Times(W, x, n)(h0 * r + k)
  {
    var a: Vector := (j: nat) => RowsOf(W, h0, r)(k, j) * x(j);
    var b: Vector := (j: nat) => W(h0 * r + k, j) * x(j);
    forall j: nat | j < n
      ensures a(j) == b(0 + j)
    {
      assert RowsOf(W, h0, r)(k, j) == W(h0 * r + k, j);
    }
    SumShifts(b, a, 0, n);
  }

  // One entry of the part of node r is the part of the whole sum that lies in its range.
  lemma NodeEntry(W1: Matrix, W3: Matrix, W2: Matrix, f: (real, real) -> real, x: Vector, n: nat, h0: nat, r: nat, i: nat)
    ensures NodePart(W1, W3, W2, f, x, n, h0, r)(i) ==
            Sum((k: nat) => W2(i, k) * Joined(f, Times(W1, x, n), Times(W3, x, n))(k), h0 * r, h0 * r + h0)
  {
    hide Joined;
    var whole: Vector := (k: nat) => W2(i, k) * Joined(f, Times(W1, x, n), Times(W3, x, n))(k);
    var part: Vector := (k: nat) =>
      ColumnsOf(W2, h0, r)(i, k) * Joined(f, Times(RowsOf(W1, h0, r), x, n), Times(RowsOf(W3, h0, r), x, n))(k);
    forall k: nat | k < h0
      ensures part(k) == whole(h0 * r + k)
    {
      NodeHidden(W1, W3, f, x, n, h0, r, k);
    }
    SumShifts(whole, part, h0 * r, h0);
  }

  /** For every number of nodes, the parts add up to what one node with all weights computes. */
  lemma {:induction false} PartsAddUp(W1: Matrix, W3: Matrix, W2: Matrix, f: (real, real) -> real, x: Vector,
                                      n: nat, h0: nat, nodes: nat, i: nat)
    ensures Sum((r: nat) => NodePart(W1, W3, W2, f, x, n, h0, r)(i), 0, nodes) ==
            FeedForward(W1, W3, W2, f, x, n, h0 * nodes)(i)
  {
    var parts: Vector := (r: nat) => NodePart(W1, W3, W2, f, x, n, h0, r)(i);
    var whole: Vector := (k: nat) => W2(i, k) * Joined(f, Times(W1, x, n), Times(W3, x, n))(k);
    PartialParts(W1, W3, W2, f, x, n, h0, nodes, i, parts, whole);
  }

  lemma {:induction false} PartialParts(W1: Matrix, W3: Matrix, W2: Matrix, f: (real, real) -> real, x: Vector,
                                        n: nat, h0: nat, nodes: nat, i: nat, parts: Vector, whole: Vector)
    requires forall r: nat :: parts(r) == NodePart(W1, W3, W2, f, x, n, h0, r)(i)
    requires whole == ((k: nat) => W2(i, k) * Joined(f, Times(W1, x, n), Times(W3, x, n))(k))
    ensures Sum(parts, 0, nodes) == Sum(whole, 0, h0 * nodes)
  {
    hide NodePart, Joined, Times;
    if nodes == 0 {
      assert h0 * nodes == 0;
    } else {
      PartialParts(W1, W3, W2, f, x, n, h0, nodes - 1, i, parts, whole);
      NodeEntry(W1, W3, W2, f, x, n, h0, nodes - 1, i);
      NextMultiple(nodes - 1, h0);
      assert h0 * (nodes - 1) + h0 == h0 * nodes;
      SumSplits(whole, 0, h0 * (nodes - 1), h0 * nodes);
    }
  }

  // ---------------------------------------------------------------------------
  // Star all-reduce
  // ---------------------------------------------------------------------------

  // Column i of what the nodes hold.
  function Column(buffers: seq<seq<real>>, i: nat): Vector {
    (r: nat) => if r < |buffers| && i < |buffers[r]| then buffers[r][i] else 0.0
  }

  predicate Rectangular(buffers: seq<seq<real>>, dim: nat) {
    forall r :: 0 <= r < |buffers| ==> |buffers[r]| == dim
  }

  /** The first node of the group gathers all buffers, adds them into its own in order of the
      nodes, and unless told otherwise sends the result back to all. */
  method StarAllReduce(before: seq<seq<real>>, dim: nat, onlyToRoot: bool) returns (after: seq<seq<real>>)
    requires |before| >= 1 && Rectangular(before, dim)
    ensures |after| == |before| && Rectangular(after, dim)
    ensures forall i :: 0 <= i < dim ==> after[0][i] == Sum(Column(before, i), 0, |before|)
    ensures forall r :: 0 < r < |before| ==> after[r] == if onlyToRoot then before[r] else after[0]
  {
    if |before| == 1 {
      forall i | 0 <= i < dim
        ensures before[0][i] == Sum(Column(before, i), 0, 1)
      {
        assert Sum(Column(before, i), 0, 1) == Sum(Column(before, i), 0, 0) + before[0][i];
      }
      return before;
    }
    var gathered := before[1..];
    var buffer := before[0];
    var w := 0;
    while w < |gathered|
      invariant 0 <= w <= |gathered| && |buffer| == dim
      invariant forall i :: 0 <= i < dim ==> buffer[i] == Sum(Column(before, i), 0, w + 1)
    {
      buffer := ReduceSum(buffer, gathered[w]);
      w := w + 1;
    }
    after := seq(|before|, r requires 0 <= r < |before| => if r == 0 || !onlyToRoot then buffer else before[r]);
  }

  method ReduceSum(a: seq<real>, b: seq<real>) returns (c: seq<real>)
    requires |a| == |b|
    ensures |c| == |a| && forall i :: 0 <= i < |a| ==> c[i] == a[i] + b[i]
  {
    c := [];
    var i := 0;
    while i < |a|
      invariant 0 <= i <= |a| && |c| == i && forall q :: 0 <= q < i ==> c[q] == a[q] + b[q]
    {
      c := c + [a[i] + b[i]];
      i := i + 1;
    }
  }

  // ---------------------------------------------------------------------------
  // From the split weights to the result
  // ---------------------------------------------------------------------------

  /** The three matrices of a feed-forward block, whole or sliced: `w1` and `w3` have
      hidden * size rows of `input` blocks each, `w2` has `rows` rows of `hidden` blocks. */
  datatype Weights = Weights(w1: seq<Block>, w3: seq<Block>, w2: seq<Block>, input: nat, hidden: nat, rows: nat)

  /** Blocks of `size` values each, with what they stand for. */
  datatype Format = Format(size: nat, dequant: (Block, nat) -> real)

  predicate Fits(W: Weights, F: Format) {
    && F.size > 0 && IsMatrix(W.w1, W.hidden * F.size, W.input) && IsMatrix(W.w3, W.hidden * F.size, W.input)
    && IsMatrix(W.w2, W.rows, W.hidden)
  }

  // The values of the three matrices.
  function First(W: Weights, F: Format): Matrix
    requires Fits(W, F)
  {
    Values(W.w1, W.hidden * F.size, W.input, F.size, F.dequant)
  }

  function Gate(W: Weights, F: Format): Matrix
    requires Fits(W, F)
  {
    Values(W.w3, W.hidden * F.size, W.input, F.size, F.dequant)
  }

  function Second(W: Weights, F: Format): Matrix
    requires Fits(W, F)
  {
    Values(W.w2, W.rows, W.hidden, F.size, F.dequant)
  }

  /** What a node computes from the weights it has. */
  function Computed(W: Weights, F: Format, f: (real, real) -> real, x: Vector): Vector
    requires Fits(W, F)
  {
    FeedForward(First(W, F), Gate(W, F), Second(W, F), f, x, W.input * F.size, W.hidden * F.size)
  }

  // S is what the splitting methods give node r of W.
  ghost predicate IsSlice(W: Weights, S: Weights, F: Format, r: nat) {
    && Fits(W, F) && Fits(S, F) && S.input == W.input && S.rows == W.rows
    && IsRowSlice(W.w1, S.w1, W.hidden * F.size, W.input, S.hidden * F.size, r)
    && IsRowSlice(W.w3, S.w3, W.hidden * F.size, W.input, S.hidden * F.size, r)
    && IsColumnSlice(W.w2, S.w2, W.rows, W.hidden, S.hidden, r)
  }

  lemma BlockOf(k: nat, n: nat, size: nat)
    requires size > 0 && k < n * size
    ensures k / size < n
  {
    if k / size >= n {
      ProductMonotone(n, k / size, size);
      DivideBack(k, size);
    }
  }

  // Row k of a node's first matrices, applied to x.
  lemma SliceRow(w: seq<Block>, slice: seq<Block>, d: nat, n: nat, d0: nat, r: nat, F: Format, x: Vector, k: nat)
    requires F.size > 0 && IsRowSlice(w, slice, d, n, d0, r) && k < d0
    ensures Times(Values(slice, d0, n, F.size, F.dequant), x, n * F.size)(k) ==
            Times(RowsOf(Values(w, d, n, F.size, F.dequant), d0, r), x, n * F.size)(k)
  {
    var A, B := Values(slice, d0, n, F.size, F.dequant), RowsOf(Values(w, d, n, F.size, F.dequant), d0, r);
    var a: Vector := (j: nat) => A(k, j) * x(j);
    var b: Vector := (j: nat) => B(k, j) * x(j);
    hide IsRowSlice, Values, RowsOf;
    forall j: nat | j < n * F.size
      ensures a(j) == b(0 + j)
    {
      BlockOf(j, n, F.size);
      RowSliceValues(w, slice, d, n, d0, r, F.size, F.dequant, k, j);
    }
    SumShifts(b, a, 0, n * F.size);
  }

  // A feed-forward block depends on its matrices through these terms only.
  lemma SameTerms(A1: Matrix, A3: Matrix, A2: Matrix, B1: Matrix, B3: Matrix, B2: Matrix,
                  f: (real, real) -> real, x: Vector, n: nat, h: nat, i: nat)
    requires forall k: nat :: k < h ==> A2(i, k) == B2(i, k)
    requires forall k: nat :: k < h ==> Times(A1, x, n)(k) == Times(B1, x, n)(k)
    requires forall k: nat :: k < h ==> Times(A3, x, n)(k) == Times(B3, x, n)(k)
    ensures FeedForward(A1, A3, A2, f, x, n, h)(i) == FeedForward(B1, B3, B2, f, x, n, h)(i)
  {
    var u, v := Joined(f, Times(A1, x, n), Times(A3, x, n)), Joined(f, Times(B1, x, n), Times(B3, x, n));
    var a: Vector := (k: nat) => A2(i, k) * u(k);
    var b: Vector := (k: nat) => B2(i, k) * v(k);
    forall k: nat | k < h
      ensures a(k) == b(0 + k)
    {
      assert u(k) == v(k);
    }
    SumShifts(b, a, 0, h);
  }

  /** What a node computes from its slices is its part of the block with whole matrices. */
  lemma SliceComputesPart(W: Weights, S: Weights, F: Format, f: (real, real) -> real, x: Vector, r: nat, i: nat)
    requires IsSlice(W, S, F, r) && i < W.rows
    ensures Computed(S, F, f, x)(i) ==
            NodePart(First(W, F), Gate(W, F), Second(W, F), f, x, W.input * F.size, S.hidden * F.size, r)(i)
  {
    hide IsRowSlice, IsColumnSlice, Values, RowsOf, ColumnsOf, Times, FeedForward, IsMatrix;
    var n, h, h0 := W.input * F.size, W.hidden * F.size, S.hidden * F.size;
    forall k: nat | k < h0
      ensures Times(First(S, F), x, n)(k) == Times(RowsOf(First(W, F), h0, r), x, n)(k)
      ensures Times(Gate(S, F), x, n)(k) == Times(RowsOf(Gate(W, F), h0, r), x, n)(k)
      ensures Second(S, F)(i, k) == ColumnsOf(Second(W, F), h0, r)(i, k)
    {
      SliceRow(W.w1, S.w1, h, W.input, h0, r, F, x, k);
      SliceRow(W.w3, S.w3, h, W.input, h0, r, F, x, k);
      BlockOf(k, S.hidden, F.size);
      ColumnSliceValues(W.w2, S.w2, W.rows, W.hidden, S.hidden, r, F.size, F.dequant, i, k);
    }
    hide First, Gate, Second;
    SameTerms(First(S, F), Gate(S, F), Second(S, F),
              RowsOf(First(W, F), h0, r), RowsOf(Gate(W, F), h0, r), ColumnsOf(Second(W, F), h0, r), f, x, n, h0, i);
  }

  /** For every number of nodes, what the nodes compute from their slices adds up to what one node
      with the whole weights computes. */
  lemma SlicesAddUp(W: Weights, slices: seq<Weights>, F: Format, f: (real, real) -> real, x: Vector, hidden: nat, i: nat, parts: Vector)
    requires Fits(W, F) && i < W.rows && W.hidden == hidden * |slices|
    requires forall r: nat :: r < |slices| ==> IsSlice(W, slices[r], F, r) && slices[r].hidden == hidden
    requires forall r: nat :: r < |slices| ==> Fits(slices[r], F) && parts(r) == Computed(slices[r], F, f, x)(i)
    ensures Sum(parts, 0, |slices|) == Computed(W, F, f, x)(i)
  {
    hide First, Gate, Second, NodePart, IsSlice, FeedForward, Fits, Sum;
    var W1, W3, W2, n, h0 := First(W, F), Gate(W, F), Second(W, F), W.input * F.size, hidden * F.size;
    var whole: Vector := (r: nat) => NodePart(W1, W3, W2, f, x, n, h0, r)(i);
    PartsAddUp(W1, W3, W2, f, x, n, h0, |slices|, i);
    ScaledParts(hidden, |slices|, F.size);
    forall r: nat | r < |slices|
      ensures parts(r) == whole(0 + r)
    {
      SliceComputesPart(W, slices[r], F, f, x, r, i);
    }
    SumShifts(whole, parts, 0, |slices|);
  }

  lemma ScaledParts(hidden: nat, nodes: nat, size: nat)
    ensures hidden * size * nodes == hidden * nodes * size
  {
  }

  // ---------------------------------------------------------------------------
  // The result spelled out
  // ---------------------------------------------------------------------------

  // The value in row i, column k of a matrix of n blocks a row.
  function Cell(w: seq<Block>, n: nat, F: Format, i: nat, k: nat): real
    requires F.size > 0
  {
    var p := i * n + k / F.size;
    if 0 <= p < |w| then F.dequant(w[p], k % F.size) else 0.0
  }

  // Row k of a matrix times x.
  function RowTimes(w: seq<Block>, n: nat, F: Format, x: Vector, k: nat): real
    requires F.size > 0
  {
    Sum((j: nat) => Cell(w, n, F, k, j) * x(j), 0, n * F.size)
  }

  /** Component i of the block, index by index: row i of w2 times the vector whose component k joins
      row k of w1 times x, which the activation acts on, and row k of w3 times x. */
  function SpelledOut(w1: seq<Block>, w3: seq<Block>, w2: seq<Block>, input: nat, hidden: nat, F: Format,
                      f: (real, real) -> real, x: Vector, i: nat): real
    requires F.size > 0
  {
    Sum((k: nat) => Cell(w2, hidden, F, i, k) * f(RowTimes(w1, input, F, x, k), RowTimes(w3, input, F, x, k)), 0, hidden * F.size)
  }

  lemma CellIsValue(w: seq<Block>, d: nat, n: nat, F: Format, i: nat, k: nat)
    requires F.size > 0 && IsMatrix(w, d, n) && i < d && k < n * F.size
    ensures Values(w, d, n, F.size, F.dequant)(i, k) == Cell(w, n, F, i, k)
  {
    BlockOf(k, n, F.size);
    var j := k / F.size;
    InMatrix(i, j, d, n);
    assert At(w, d, n, i, j) == w[i * n + j];
  }

  lemma RowIsTimes(w: seq<Block>, d: nat, n: nat, F: Format, x: Vector, k: nat)
    requires F.size > 0 && IsMatrix(w, d, n) && k < d
    ensures Times(Values(w, d, n, F.size, F.dequant), x, n * F.size)(k) == RowTimes(w, n, F, x, k)
  {
    hide Values, Cell, IsMatrix;
    var A := Values(w, d, n, F.size, F.dequant);
    var a: Vector := (j: nat) => A(k, j) * x(j);
    var b: Vector := (j: nat) => Cell(w, n, F, k, j) * x(j);
    forall j: nat | j < n * F.size
      ensures a(j) == b(0 + j)
    {
      CellIsValue(w, d, n, F, k, j);
    }
    SumShifts(b, a, 0, n * F.size);
  }

  /** What one node with the whole weights computes is the sum spelled out over the blocks. */
  lemma ComputedIsSpelledOut(W: Weights, F: Format, f: (real, real) -> real, x: Vector, i: nat)
    requires Fits(W, F) && i < W.rows
    ensures Computed(W, F, f, x)(i) == SpelledOut(W.w1, W.w3, W.w2, W.input, W.hidden, F, f, x, i)
  {
    hide Values, Cell, IsMatrix, Times, RowTimes;
    var n, h := W.input * F.size, W.hidden * F.size;
    var A1, A3, A2 := First(W, F), Gate(W, F), Second(W, F);
    var u, v := Times(A1, x, n), Times(A3, x, n);
    var a: Vector := (k: nat) => A2(i, k) * Joined(f, u, v)(k);
    var b: Vector := (k: nat) =>
      Cell(W.w2, W.hidden, F, i, k) * f(RowTimes(W.w1, W.input, F, x, k), RowTimes(W.w3, W.input, F, x, k));
    forall k: nat | k < h
      ensures a(k) == b(0 + k)
    {
      CellIsValue(W.w2, W.rows, W.hidden, F, i, k);
      RowIsTimes(W.w1, h, W.input, F, x, k);
      RowIsTimes(W.w3, h, W.input, F, x, k);
    }
    SumShifts(b, a, 0, h);
    hide First, Gate, Second, Joined;
    FeedForwardIs(A1, A3, A2, f, x, n, h, i, a);
  }

  lemma FeedForwardIs(W1: Matrix, W3: Matrix, W2: Matrix, f: (real, real) -> real, x: Vector, n: nat, h: nat, i: nat, a: Vector)
    requires a == ((k: nat) => W2(i, k) * Joined(f, Times(W1, x, n), Times(W3, x, n))(k))
    ensures FeedForward(W1, W3, W2, f, x, n, h)(i) == Sum(a, 0, h)
  {
    hide Joined;
  }

  lemma EvenRows(hidden: nat, size: nat, nodes: nat)
    requires nodes > 0 && hidden % nodes == 0
    ensures hidden * size % nodes == 0 && hidden * size / nodes == hidden / nodes * size
    ensures hidden == hidden / nodes * nodes
  {
    EvenSplit(hidden, nodes);
    var q := hidden / nodes * size;
    assert hidden * size == q * nodes + 0;
    QuotientUnique(hidden * size, nodes, q, 0);
    DivideBack(hidden * size, nodes);
  }

  // One node's share of the three matrices.
  method SplitWeights(w1: array<Block>, w3: array<Block>, w2: array<Block>, ghost W: Weights, F: Format,
                      input: nat, hidden: nat, rows: nat, nodes: nat, r: nat) returns (S: Weights)
    requires W == Weights(w1[..], w3[..], w2[..], input, hidden, rows) && Fits(W, F)
    requires nodes > 0 && hidden % nodes == 0 && r < nodes
    ensures IsSlice(W, S, F, r) && S.hidden == hidden / nodes
  {
    EvenRows(hidden, F.size, nodes);
    var d, hidden0 := hidden * F.size, hidden / nodes;
    var s1, s3, s2 := new Block[d / nodes * input], new Block[d / nodes * input], new Block[rows * hidden0];
    var _ := SplitRows(w1, d, input, nodes, r, s1);
    var _ := SplitRows(w3, d, input, nodes, r, s3);
    var _ := SplitColumns(w2, rows, hidden, nodes, r, s2);
    hide IsRowSlice, IsColumnSlice;
    S := Weights(s1[..], s3[..], s2[..], input, hidden0, rows);
  }

  /** End to end: split the weights, let every node compute from its slices, add the parts up;
      then every node holds what one node with the whole weights would have computed. */
  method TensorParallelFeedForward(w1: array<Block>, w3: array<Block>, w2: array<Block>, F: Format, f: (real, real) -> real,
                                   x: Vector, input: nat, hidden: nat, rows: nat, nodes: nat)
      returns (outputs: seq<seq<real>>)
    requires Fits(Weights(w1[..], w3[..], w2[..], input, hidden, rows), F)
    requires nodes >= 1 && hidden % nodes == 0
    ensures |outputs| == nodes && Rectangular(outputs, rows)
    ensures var W := Weights(w1[..], w3[..], w2[..], input, hidden, rows);
            forall r, i: nat :: 0 <= r < nodes && i < rows ==> outputs[r][i] == Computed(W, F, f, x)(i)
    ensures F.size > 0 && forall r, i: nat :: 0 <= r < nodes && i < rows ==>
              outputs[r][i] == SpelledOut(w1[..], w3[..], w2[..], input, hidden, F, f, x, i)
  {
    hide Fits, Computed, IsSlice, SpelledOut;
    ghost var W := Weights(w1[..], w3[..], w2[..], input, hidden, rows);
    ghost var slices: seq<Weights> := [];
    var parts: seq<seq<real>> := [];
    while |parts| < nodes
      invariant |parts| == |slices| <= nodes && Rectangular(parts, rows)
      invariant W == Weights(w1[..], w3[..], w2[..], input, hidden, rows)
      invariant forall r: nat :: r < |slices| ==> IsSlice(W, slices[r], F, r) && slices[r].hidden == hidden / nodes
      invariant forall r: nat :: r < |slices| ==> IsPart(slices[r], F, f, x, parts[r])
    {
      var S := SplitWeights(w1, w3, w2, W, F, input, hidden, rows, nodes, |parts|);
      SliceFits(W, S, F, |parts|);
      var part := seq(rows, i requires 0 <= i < rows && Fits(S, F) => Computed(S, F, f, x)(i));
      parts, slices := parts + [part], slices + [S];
    }
    outputs := StarAllReduce(parts, rows, false);
    EvenRows(hidden, F.size, nodes);
    PositiveSize(W, F);
    forall r, i: nat | 0 <= r < nodes && i < rows
      ensures outputs[r][i] == Computed(W, F, f, x)(i) == SpelledOut(W.w1, W.w3, W.w2, input, hidden, F, f, x, i)
    {
      ComputedIsSpelledOut(W, F, f, x, i);
      assert outputs[0][i] == Sum(Column(parts, i), 0, nodes);
      SlicesAddUp(W, slices, F, f, x, hidden / nodes, i, Column(parts, i));
    }
  }

  lemma PositiveSize(W: Weights, F: Format)
    requires Fits(W, F)
    ensures F.size > 0
  {
  }

  // What a node puts into its buffer.
  predicate IsPart(S: Weights, F: Format, f: (real, real) -> real, x: Vector, part: seq<real>) {
    Fits(S, F) && |part| == S.rows && forall i: nat :: i < |part| ==> part[i] == Computed(S, F, f, x)(i)
  }

  lemma SliceFits(W: Weights, S: Weights, F: Format, r: nat)
    requires IsSlice(W, S, F, r)
    ensures Fits(S, F) && S.rows == W.rows
  {
  }
}
