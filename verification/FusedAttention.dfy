/** The tiled online-softmax kernel, the direct kernel it replaces, and their agreement. */
module FusedAttention {
  import opened Arithmetic
  import opened Softmax
  import opened Attention
  import Partition

  // ---------------------------------------------------------------------------
  // Views of the buffers
  // ---------------------------------------------------------------------------

  ghost function RowOf(s: array2<real>, r: nat): (v: seq<real>)
    requires r < s.Length0
    reads s
    ensures |v| == s.Length1 && forall c :: 0 <= c < s.Length1 ==> v[c] == s[r, c]
  {
    seq(s.Length1, c requires 0 <= c < s.Length1 reads s => s[r, c])
  }

  ghost function HeadOf(o: array3<real>, b: nat, h: nat): (v: seq<real>)
    requires b < o.Length0 && h < o.Length1
    reads o
    ensures |v| == o.Length2 && forall i :: 0 <= i < o.Length2 ==> v[i] == o[b, h, i]
  {
    seq(o.Length2, i requires 0 <= i < o.Length2 reads o => o[b, h, i])
  }

  method PutScore(s: array2<real>, r: nat, c: nat, x: real)
    requires r < s.Length0 && c < s.Length1
    modifies s
    ensures RowOf(s, r) == old(RowOf(s, r))[c := x]
    ensures forall q :: 0 <= q < s.Length0 && q != r ==> RowOf(s, q) == old(RowOf(s, q))
  {
    s[r, c] := x;
    assert forall q :: 0 <= q < s.Length0 && q != r ==> RowOf(s, q) == old(RowOf(s, q));
  }

  /** memset of the first n cells of a scratch row. */
  method ClearRow(s: array2<real>, r: nat, n: nat)
    requires r < s.Length0 && n <= s.Length1
    modifies s
    ensures forall c :: 0 <= c < n ==> RowOf(s, r)[c] == 0.0
    ensures forall q :: 0 <= q < s.Length0 && q != r ==> RowOf(s, q) == old(RowOf(s, q))
  {
    for c := 0 to n
      invariant forall d :: 0 <= d < c ==> RowOf(s, r)[d] == 0.0
      invariant forall q :: 0 <= q < s.Length0 && q != r ==> RowOf(s, q) == old(RowOf(s, q))
    {
      PutScore(s, r, c, 0.0);
    }
  }

  // Only the head (b, h) may have changed.
  twostate predicate OnlyHead(o: array3<real>, b: nat, h: nat)
    reads o
  {
    forall b', h' :: 0 <= b' < o.Length0 && 0 <= h' < o.Length1 && (b' != b || h' != h)
      ==> HeadOf(o, b', h') == old(HeadOf(o, b', h'))
  }

  method ScaleHead(o: array3<real>, b: nat, h: nat, f: real)
    requires b < o.Length0 && h < o.Length1
    modifies o
    ensures OnlyHead(o, b, h)
    ensures forall i :: 0 <= i < o.Length2 ==> HeadOf(o, b, h)[i] == f * old(HeadOf(o, b, h))[i]
  {
    for i := 0 to o.Length2
      invariant OnlyHead(o, b, h)
      invariant forall k :: 0 <= k < i ==> o[b, h, k] == f * old(o[b, h, k])
      invariant forall k :: i <= k < o.Length2 ==> o[b, h, k] == old(o[b, h, k])
    {
      o[b, h, i] := o[b, h, i] * f;
    }
  }

  method ClearHead(o: array3<real>, b: nat, h: nat)
    requires b < o.Length0 && h < o.Length1
    modifies o
    ensures OnlyHead(o, b, h)
    ensures forall i :: 0 <= i < o.Length2 ==> HeadOf(o, b, h)[i] == 0.0
  {
    for i := 0 to o.Length2
      invariant OnlyHead(o, b, h)
      invariant forall k :: 0 <= k < i ==> o[b, h, k] == 0.0
    {
      o[b, h, i] := 0.0;
    }
  }

  /** hY += p * posV. */
  method AddScaled(o: array3<real>, b: nat, h: nat, p: real, v: Vec)
    requires b < o.Length0 && h < o.Length1 && |v| == o.Length2
    modifies o
    ensures OnlyHead(o, b, h)
    ensures forall i :: 0 <= i < o.Length2 ==> HeadOf(o, b, h)[i] == old(HeadOf(o, b, h))[i] + p * v[i]
  {
    for i := 0 to o.Length2
      invariant OnlyHead(o, b, h)
      invariant forall k :: 0 <= k < i ==> o[b, h, k] == old(o[b, h, k]) + p * v[k]
      invariant forall k :: i <= k < o.Length2 ==> o[b, h, k] == old(o[b, h, k])
    {
      o[b, h, i] := o[b, h, i] + p * v[i];
    }
  }

  // ---------------------------------------------------------------------------
  // What the buffers hold between the phases
  // ---------------------------------------------------------------------------

  // Cells [0, n) of a scratch row hold the scores of the visible keys t0, t0 + 1, ...
  ghost predicate RawIs(l: Lane, t0: nat, n: nat, row: seq<real>) {
    Ok(l, t0 + n) && n <= |row| && forall c :: 0 <= c < n ==> l.seen[t0 + c] ==> row[c] == l.score[t0 + c]
  }

  // Cells [0, n) hold the weights relative to m.
  ghost predicate TileIs(e: real -> real, l: Lane, m: RunMax, t0: nat, n: nat, row: seq<real>) {
    Ok(l, t0 + n) && n <= |row| && forall c :: 0 <= c < n ==> row[c] == Weight(e, l, m, t0 + c)
  }

  // The running maximum and sum of a slot after n keys.
  ghost predicate StateIs(e: real -> real, l: Lane, m: RunMax, sum: real, n: nat) {
    Ok(l, n) && sum == Mass(e, l, m, n) && (m == NegInf ==> NoneSeen(l, n))
  }

  // The unnormalised output of (b, h) after n keys.
  ghost predicate HeadIs(a: Inputs, e: real -> real, b: nat, h: nat, m: RunMax, n: nat, out: Vec)
    requires Valid(a) && InCall(a, b, h) && n <= |a.keys|
  {
    |out| == a.headDim &&
    forall i :: 0 <= i < a.headDim ==> out[i] == Blend(e, LaneOf(a, b, h), Column(a, h, i), m, n)
  }

  // ---------------------------------------------------------------------------
  // Phase (2): one slot of the online softmax
  // ---------------------------------------------------------------------------

  function Larger(x: RunMax, y: RunMax): RunMax {
    if x.At? && (y.NegInf? || x.m > y.m) then x else y
  }

  /** The largest visible score of a tile. */
  method TileMax(a: Inputs, b: nat, r: nat, t0: nat, t1: nat, s: array2<real>) returns (m: RunMax)
    requires b < |a.positions| && t0 <= t1 && r < s.Length0 && t1 - t0 <= s.Length1
    ensures m.NegInf? <==> forall t :: t0 <= t < t1 ==> !Sees(a, b, t)
    ensures m.At? ==> exists t :: t0 <= t < t1 && Sees(a, b, t) && s[r, t - t0] == m.m
    ensures forall t :: t0 <= t < t1 && Sees(a, b, t) ==> m.At? && s[r, t - t0] <= m.m
  {
    m := NegInf;
    for t := t0 to t1
      invariant m.NegInf? <==> forall u :: t0 <= u < t ==> !Sees(a, b, u)
      invariant m.At? ==> exists u :: t0 <= u < t && Sees(a, b, u) && s[r, u - t0] == m.m
      invariant forall u :: t0 <= u < t && Sees(a, b, u) ==> m.At? && s[r, u - t0] <= m.m
    {
      if Sees(a, b, t) {
        m := Larger(At(s[r, t - t0]), m);
      }
    }
  }

  /** Replaces the scores of a tile by weights relative to mNew and returns their sum. */
  method ExpTile(a: Inputs, e: real -> real, b: nat, h: nat, r: nat, t0: nat, t1: nat, mNew: real, s: array2<real>)
    returns (sum: real)
    requires Valid(a) && InCall(a, b, h) && r < s.Length0 && t0 <= t1 <= |a.keys| && t1 - t0 <= s.Length1
    requires RawIs(LaneOf(a, b, h), t0, t1 - t0, RowOf(s, r))
    modifies s
    ensures TileIs(e, LaneOf(a, b, h), At(mNew), t0, t1 - t0, RowOf(s, r))
    ensures sum == Mass(e, LaneOf(a, b, h), At(mNew), t1) - Mass(e, LaneOf(a, b, h), At(mNew), t0)
    ensures forall q :: 0 <= q < s.Length0 && q != r ==> RowOf(s, q) == old(RowOf(s, q))
  {
    hide Valid, Table, LaneOf, RowOf, Mass, Weight, RawIs, TileIs;
    ghost var l := LaneOf(a, b, h);
    ghost var raw := RowOf(s, r);
    NoCells(a, e, b, h, At(mNew), t0, t1, raw);
    sum := 0.0;
    for t := t0 to t1
      invariant TileIs(e, l, At(mNew), t0, t - t0, RowOf(s, r))
      invariant forall c :: t - t0 <= c < s.Length1 ==> RowOf(s, r)[c] == raw[c]
      invariant sum == Mass(e, l, At(mNew), t) - Mass(e, l, At(mNew), t0)
      invariant forall q :: 0 <= q < s.Length0 && q != r ==> RowOf(s, q) == old(RowOf(s, q))
    {
      assert RowOf(s, r)[t - t0] == raw[t - t0] == s[r, t - t0];
      CellGrows(a, e, b, h, mNew, t0, t1, t, raw, RowOf(s, r));
      if Sees(a, b, t) {
        var p := e(s[r, t - t0] - mNew);
        PutScore(s, r, t - t0, p);
        sum := sum + p;
      } else {
        PutScore(s, r, t - t0, 0.0);
      }
    }
  }

  lemma NoCells(a: Inputs, e: real -> real, b: nat, h: nat, m: RunMax, t0: nat, t1: nat, row: seq<real>)
    requires Valid(a) && InCall(a, b, h) && t0 <= t1 <= |a.keys|
    ensures Ok(LaneOf(a, b, h), t1) && TileIs(e, LaneOf(a, b, h), m, t0, 0, row)
  {
  }

  // One raw cell becomes a weight, which the mass gains.
  lemma CellGrows(a: Inputs, e: real -> real, b: nat, h: nat, m: real, t0: nat, t1: nat, t: nat, raw: seq<real>, row: seq<real>)
    requires Valid(a) && InCall(a, b, h) && t0 <= t < t1 <= |a.keys| && t1 - t0 <= |raw| == |row|
    requires RawIs(LaneOf(a, b, h), t0, t1 - t0, raw) && TileIs(e, LaneOf(a, b, h), At(m), t0, t - t0, row)
    ensures var l, c := LaneOf(a, b, h), t - t0;
            var p := if Sees(a, b, t) then e(raw[c] - m) else 0.0;
            && Ok(l, t + 1) && TileIs(e, l, At(m), t0, c + 1, row[c := p])
            && Mass(e, l, At(m), t + 1) == Mass(e, l, At(m), t) + p
  {
    hide Valid, Table, ScoreAt, Sees;
    var l := LaneOf(a, b, h);
    assert l.seen[t0 + (t - t0)] == Sees(a, b, t);
  }

  // A tile without visible keys changes nothing but the number of keys processed.
  lemma SkipTile(a: Inputs, e: real -> real, b: nat, h: nat, m: RunMax, sum: real, row: seq<real>, t0: nat, t1: nat)
    requires Valid(a) && InCall(a, b, h) && t0 <= t1 <= |a.keys|
    requires StateIs(e, LaneOf(a, b, h), m, sum, t0) && t1 - t0 <= |row|
    requires forall t :: t0 <= t < t1 ==> !Sees(a, b, t)
    requires forall c :: 0 <= c < t1 - t0 ==> row[c] == 0.0
    ensures StateIs(e, LaneOf(a, b, h), m, sum, t1)
    ensures TileIs(e, LaneOf(a, b, h), m, t0, t1 - t0, row)
  {
    hide Valid, Table, LaneOf, ScoreAt, Sees;
    var l := LaneOf(a, b, h);
    assert forall t :: t0 <= t < t1 ==> l.seen[t] == Sees(a, b, t);
    UnseenTail(e, l, l.score, m, t0, t1);
    forall c | 0 <= c < t1 - t0
      ensures row[c] == Weight(e, l, m, t0 + c)
    {
      assert l.seen[t0 + c] == Sees(a, b, t0 + c);
    }
  }

  // Multiplying sum and output by alpha moves them from mOld to mNew.
  lemma Rescaled(a: Inputs, e: real -> real, b: nat, h: nat, mOld: RunMax, mNew: real, n: nat,
                 alpha: real, sum: real, out: Vec, sum': real, out': Vec)
    requires Valid(a) && IsExp(e) && InCall(a, b, h) && n <= |a.keys|
    requires StateIs(e, LaneOf(a, b, h), mOld, sum, n) && HeadIs(a, e, b, h, mOld, n, out)
    requires alpha == if mOld.NegInf? then 0.0 else e(mOld.m - mNew)
    requires sum' == alpha * sum && |out'| == |out| && forall i :: 0 <= i < |out| ==> out'[i] == alpha * out[i]
    ensures sum' == Mass(e, LaneOf(a, b, h), At(mNew), n)
    ensures HeadIs(a, e, b, h, At(mNew), n, out')
  {
    hide Valid, Table, LaneOf, ScoreAt, Sees, Column, IsExp, Mass, Blend, NoneSeen;
    var l := LaneOf(a, b, h);
    if mOld.NegInf? {
      NothingSeenNoMass(e, l, l.score, At(mNew), n);
    } else {
      MassShift(e, l, mOld.m, mNew, n);
    }
    forall i | 0 <= i < a.headDim
      ensures out'[i] == Blend(e, l, Column(a, h, i), At(mNew), n)
    {
      if mOld.NegInf? {
        NothingSeenNoMass(e, l, Column(a, h, i), At(mNew), n);
      } else {
        BlendShift(e, l, Column(a, h, i), mOld.m, mNew, n);
      }
    }
  }

  /** Merges one tile into the running maximum and sum of a slot: the sum and the output
      accumulated so far are rescaled, the scores of the tile become weights. */
  method UpdateSlot(a: Inputs, e: real -> real, b: nat, h: nat, r: nat, t0: nat, t1: nat,
                    s: array2<real>, ms: array<RunMax>, ls: array<real>, o: array3<real>)
    requires Valid(a) && IsExp(e) && InCall(a, b, h) && t0 <= t1 <= |a.keys|
    requires r < s.Length0 == ms.Length == ls.Length && t1 - t0 <= s.Length1
    requires b < o.Length0 && h < o.Length1 && o.Length2 == a.headDim
    requires StateIs(e, LaneOf(a, b, h), ms[r], ls[r], t0)
    requires HeadIs(a, e, b, h, ms[r], t0, HeadOf(o, b, h))
    requires RawIs(LaneOf(a, b, h), t0, t1 - t0, RowOf(s, r))
    modifies s, ms, ls, o
    ensures StateIs(e, LaneOf(a, b, h), ms[r], ls[r], t1)
    ensures HeadIs(a, e, b, h, ms[r], t0, HeadOf(o, b, h))
    ensures TileIs(e, LaneOf(a, b, h), ms[r], t0, t1 - t0, RowOf(s, r))
    ensures forall q :: 0 <= q < s.Length0 && q != r ==>
              RowOf(s, q) == old(RowOf(s, q)) && ms[q] == old(ms[q]) && ls[q] == old(ls[q])
    ensures OnlyHead(o, b, h)
  {
    hide Valid, Table, LaneOf, ScoreAt, Column, IsExp, RowOf, HeadOf, Mass, Blend;
    ghost var l := LaneOf(a, b, h);
    var qPos := a.positions[b];
    if t0 > qPos {
      ClearRow(s, r, t1 - t0);
      SkipTile(a, e, b, h, ms[r], ls[r], RowOf(s, r), t0, t1);
      return;
    }
    hide Sees;
    var tileMax := TileMax(a, b, r, t0, t1, s);
    if tileMax.NegInf? {
      ClearRow(s, r, t1 - t0);
      SkipTile(a, e, b, h, ms[r], ls[r], RowOf(s, r), t0, t1);
      return;
    }
    var mOld := ms[r];
    var mNew := Larger(mOld, tileMax);
    var alpha := if mOld.NegInf? then 0.0 else e(mOld.m - mNew.m);
    if alpha != 1.0 {
      ls[r] := ls[r] * alpha;
      ScaleHead(o, b, h, alpha);
    }
    Rescaled(a, e, b, h, mOld, mNew.m, t0, alpha, old(ls[r]), old(HeadOf(o, b, h)), ls[r], HeadOf(o, b, h));
    var sum := ExpTile(a, e, b, h, r, t0, t1, mNew.m, s);
    ms[r] := mNew;
    ls[r] := ls[r] + sum;
  }

  // ---------------------------------------------------------------------------
  // One tile of rows and heads
  // ---------------------------------------------------------------------------

  /** Heads [h0, h0 + nj) of rows [b0, b0 + nb); all heads use key/value head kv. */
  datatype Tile = Tile(h0: nat, nj: nat, b0: nat, nb: nat, kv: nat)

  ghost predicate TileOk(a: Inputs, g: Tile)
    requires Valid(a)
  {
    && g.h0 + g.nj <= a.nHeads0 && g.b0 + g.nb <= |a.positions| && g.kv < a.nKvHeads0
    && forall h :: g.h0 <= h < g.h0 + g.nj ==> KvHead(a, h) == g.kv
  }

  // The work buffers fit the tile.
  ghost predicate Buffers(a: Inputs, g: Tile, s: array2<real>, ms: array<RunMax>, ls: array<real>, o: array3<real>) {
    && s.Length0 == ms.Length == ls.Length == g.nj * g.nb
    && o.Length0 == |a.positions| && o.Length1 == a.nHeads0 && o.Length2 == a.headDim
  }

  function Slot(g: Tile, j: nat, b: nat): nat {
    j * g.nb + b
  }

  lemma SlotInRange(g: Tile, j: nat, b: nat)
    requires j < g.nj && b < g.nb
    ensures Slot(g, j, b) < g.nj * g.nb
  {
    ProductMonotone(j + 1, g.nj, g.nb);
    assert (j + 1) * g.nb == j * g.nb + g.nb;
  }

  lemma SlotsDiffer(g: Tile, j: nat, b: nat, j': nat, b': nat)
    requires b < g.nb && b' < g.nb && (j != j' || b != b')
    ensures Slot(g, j, b) != Slot(g, j', b')
  {
    if Slot(g, j, b) == Slot(g, j', b') {
      assert (j - j') * g.nb == j * g.nb - j' * g.nb == b' - b;
      SmallMultiple(j - j', g.nb);
    }
  }

  // (j', b') comes before (j, b) in the source's loops over heads and rows.
  predicate Before(j': int, b': int, j: int, b: int) {
    j' < j || (j' == j && b' < b)
  }

  ghost predicate RawSlot(a: Inputs, g: Tile, t0: nat, n: nat, s: array2<real>, j: nat, b: nat)
    requires Valid(a) && TileOk(a, g) && j < g.nj && b < g.nb
    reads s
  {
    Slot(g, j, b) < s.Length0 && RawIs(LaneOf(a, g.b0 + b, g.h0 + j), t0, n, RowOf(s, Slot(g, j, b)))
  }

  // After the keys before t, and for the slots before (jn, bn) also key t.
  ghost predicate RawUpTo(a: Inputs, g: Tile, t0: nat, n: nat, s: array2<real>, jn: nat, bn: nat)
    requires Valid(a) && TileOk(a, g)
    reads s
  {
    forall j, b :: 0 <= j < g.nj && 0 <= b < g.nb ==>
      if Before(j, b, jn, bn) then RawSlot(a, g, t0, n + 1, s, j, b) else RawSlot(a, g, t0, n, s, j, b)
  }

  /** Phase (1): scores of keys [t0, t1), one key at a time for all rows and heads. */
  method ScoreTile(a: Inputs, g: Tile, t0: nat, t1: nat, s: array2<real>)
    requires Valid(a) && TileOk(a, g) && t0 <= t1 <= |a.keys|
    requires s.Length0 == g.nj * g.nb && t1 - t0 <= s.Length1
    modifies s
    ensures RawUpTo(a, g, t0, t1 - t0, s, 0, 0)
  {
    hide Valid, Table, LaneOf, ScoreAt, RowOf, Sees, Slot, RawIs, Dot;
    RawStart(a, g, t0, s);
    for t := t0 to t1
      invariant RawUpTo(a, g, t0, t - t0, s, 0, 0)
    {
      for j := 0 to g.nj
        invariant RawUpTo(a, g, t0, t - t0, s, j, 0)
      {
        for b := 0 to g.nb
          invariant RawUpTo(a, g, t0, t - t0, s, j, b)
        {
          ScoreOne(a, g, t0, t, j, b, s);
        }
        RawNextHead(a, g, t0, t - t0, s, j);
      }
      assert forall j', b' :: 0 <= j' < g.nj && 0 <= b' < g.nb ==> Before(j', b', g.nj, 0) && !Before(j', b', 0, 0);
    }
  }

  lemma RawStart(a: Inputs, g: Tile, t0: nat, s: array2<real>)
    requires Valid(a) && TileOk(a, g) && t0 <= |a.keys| && s.Length0 == g.nj * g.nb
    ensures RawUpTo(a, g, t0, 0, s, 0, 0)
  {
    hide Valid, Table, LaneOf, ScoreAt, RowOf, Sees, Slot;
    forall j, b | 0 <= j < g.nj && 0 <= b < g.nb
      ensures RawSlot(a, g, t0, 0, s, j, b)
    {
      SlotInRange(g, j, b);
    }
  }

  lemma RawNextHead(a: Inputs, g: Tile, t0: nat, n: nat, s: array2<real>, j: nat)
    requires Valid(a) && TileOk(a, g) && RawUpTo(a, g, t0, n, s, j, g.nb)
    ensures RawUpTo(a, g, t0, n, s, j + 1, 0)
  {
    hide RawSlot, Valid;
    ghost var jn := j + 1;
    forall j', b' | 0 <= j' < g.nj && 0 <= b' < g.nb
      ensures if Before(j', b', jn, 0) then RawSlot(a, g, t0, n + 1, s, j', b') else RawSlot(a, g, t0, n, s, j', b')
    {
      assert Before(j', b', j, g.nb) <==> Before(j', b', jn, 0);
    }
  }

  method ScoreOne(a: Inputs, g: Tile, t0: nat, t: nat, j: nat, b: nat, s: array2<real>)
    requires Valid(a) && TileOk(a, g) && t0 <= t < |a.keys| && t - t0 < s.Length1 && j < g.nj && b < g.nb
    requires s.Length0 == g.nj * g.nb && RawUpTo(a, g, t0, t - t0, s, j, b)
    modifies s
    ensures RawUpTo(a, g, t0, t - t0, s, j, b + 1)
  {
    hide LaneOf, RowOf, Slot, Dot, RawIs;
    ghost var n := t - t0;
    SlotInRange(g, j, b);
    var r, row, h := Slot(g, j, b), g.b0 + b, g.h0 + j;
    ghost var before := RowOf(s, r);
    assert !Before(j, b, j, b) && RawSlot(a, g, t0, n, s, j, b);
    if Sees(a, row, t) {
      var dot := DotProduct(a.query[row][h], a.keys[t][g.kv]);
      assert KvHead(a, h) == g.kv;
      PutScore(s, r, t - t0, dot / a.root);
    }
    RawStep(LaneOf(a, row, h), t0, n, before, RowOf(s, r), Sees(a, row, t));
    ghost var bn := b + 1;
    forall j', b' | 0 <= j' < g.nj && 0 <= b' < g.nb
      ensures if Before(j', b', j, bn) then RawSlot(a, g, t0, n + 1, s, j', b') else RawSlot(a, g, t0, n, s, j', b')
    {
      assert if Before(j', b', j, b) then old(RawSlot(a, g, t0, n + 1, s, j', b')) else old(RawSlot(a, g, t0, n, s, j', b'));
      if j' != j || b' != b {
        SlotsDiffer(g, j, b, j', b');
      }
    }
  }

  lemma RawStep(l: Lane, t0: nat, n: nat, before: seq<real>, after: seq<real>, sees: bool)
    requires RawIs(l, t0, n, before) && Ok(l, t0 + n + 1) && n < |before| == |after|
    requires sees == l.seen[t0 + n]
    requires sees ==> after == before[n := l.score[t0 + n]]
    requires !sees ==> after == before
    ensures RawIs(l, t0, n + 1, after)
  {
  }

  // A slot before and after phase (2).
  ghost predicate Todo(a: Inputs, e: real -> real, g: Tile, t0: nat, t1: nat, j: nat, b: nat,
                       s: array2<real>, ms: array<RunMax>, ls: array<real>, o: array3<real>)
    requires Valid(a) && TileOk(a, g) && j < g.nj && b < g.nb && t0 <= t1 <= |a.keys| && Buffers(a, g, s, ms, ls, o)
    reads s, ms, ls, o
  {
    var r, row, h := Slot(g, j, b), g.b0 + b, g.h0 + j;
    && r < s.Length0
    && StateIs(e, LaneOf(a, row, h), ms[r], ls[r], t0)
    && HeadIs(a, e, row, h, ms[r], t0, HeadOf(o, row, h))
    && RawIs(LaneOf(a, row, h), t0, t1 - t0, RowOf(s, r))
  }

  ghost predicate Done(a: Inputs, e: real -> real, g: Tile, t0: nat, t1: nat, j: nat, b: nat,
                       s: array2<real>, ms: array<RunMax>, ls: array<real>, o: array3<real>)
    requires Valid(a) && TileOk(a, g) && j < g.nj && b < g.nb && t0 <= t1 <= |a.keys| && Buffers(a, g, s, ms, ls, o)
    reads s, ms, ls, o
  {
    var r, row, h := Slot(g, j, b), g.b0 + b, g.h0 + j;
    && r < s.Length0
    && StateIs(e, LaneOf(a, row, h), ms[r], ls[r], t1)
    && HeadIs(a, e, row, h, ms[r], t0, HeadOf(o, row, h))
    && TileIs(e, LaneOf(a, row, h), ms[r], t0, t1 - t0, RowOf(s, r))
  }

  ghost predicate OnlineUpTo(a: Inputs, e: real -> real, g: Tile, t0: nat, t1: nat, jn: nat, bn: nat,
                             s: array2<real>, ms: array<RunMax>, ls: array<real>, o: array3<real>)
    requires Valid(a) && TileOk(a, g) && t0 <= t1 <= |a.keys| && Buffers(a, g, s, ms, ls, o)
    reads s, ms, ls, o
  {
    forall j, b :: 0 <= j < g.nj && 0 <= b < g.nb ==>
      if Before(j, b, jn, bn) then Done(a, e, g, t0, t1, j, b, s, ms, ls, o)
      else Todo(a, e, g, t0, t1, j, b, s, ms, ls, o)
  }

  // Heads outside the tile are untouched.
  twostate predicate OnlyTile(g: Tile, o: array3<real>)
    reads o
  {
    forall b, h :: 0 <= b < o.Length0 && 0 <= h < o.Length1 && !(g.b0 <= b < g.b0 + g.nb && g.h0 <= h < g.h0 + g.nj)
      ==> HeadOf(o, b, h) == old(HeadOf(o, b, h))
  }

  method OnlineOne(a: Inputs, e: real -> real, g: Tile, t0: nat, t1: nat, j: nat, b: nat,
                   s: array2<real>, ms: array<RunMax>, ls: array<real>, o: array3<real>)
    requires Valid(a) && IsExp(e) && TileOk(a, g) && t0 <= t1 <= |a.keys| && t1 - t0 <= s.Length1
    requires Buffers(a, g, s, ms, ls, o) && j < g.nj && b < g.nb
    requires OnlineUpTo(a, e, g, t0, t1, j, b, s, ms, ls, o)
    modifies s, ms, ls, o
    ensures OnlineUpTo(a, e, g, t0, t1, j, b + 1, s, ms, ls, o)
    ensures OnlyTile(g, o)
  {
    hide Valid, Table, LaneOf, RowOf, HeadOf, Slot, StateIs, HeadIs, RawIs, TileIs, IsExp, KvHead;
    var r, row, h := Slot(g, j, b), g.b0 + b, g.h0 + j;
    SlotInRange(g, j, b);
    assert Todo(a, e, g, t0, t1, j, b, s, ms, ls, o);
    UpdateSlot(a, e, row, h, r, t0, t1, s, ms, ls, o);
    forall j', b' | 0 <= j' < g.nj && 0 <= b' < g.nb
      ensures if Before(j', b', j, b + 1) then Done(a, e, g, t0, t1, j', b', s, ms, ls, o)
              else Todo(a, e, g, t0, t1, j', b', s, ms, ls, o)
    {
      if j' != j || b' != b {
        SlotsDiffer(g, j, b, j', b');
        SlotInRange(g, j', b');
        assert if Before(j', b', j, b) then old(Done(a, e, g, t0, t1, j', b', s, ms, ls, o))
               else old(Todo(a, e, g, t0, t1, j', b', s, ms, ls, o));
      }
    }
  }

  /** Phase (2) for all slots of the tile. */
  method OnlineTile(a: Inputs, e: real -> real, g: Tile, t0: nat, t1: nat,
                    s: array2<real>, ms: array<RunMax>, ls: array<real>, o: array3<real>)
    requires Valid(a) && IsExp(e) && TileOk(a, g) && t0 <= t1 <= |a.keys| && t1 - t0 <= s.Length1
    requires Buffers(a, g, s, ms, ls, o) && OnlineUpTo(a, e, g, t0, t1, 0, 0, s, ms, ls, o)
    modifies s, ms, ls, o
    ensures OnlineUpTo(a, e, g, t0, t1, g.nj, 0, s, ms, ls, o)
    ensures OnlyTile(g, o)
  {
    hide Valid, Table, Done, Todo, HeadOf, IsExp, KvHead;
    for j := 0 to g.nj
      invariant OnlineUpTo(a, e, g, t0, t1, j, 0, s, ms, ls, o) && OnlyTile(g, o)
    {
      for b := 0 to g.nb
        invariant OnlineUpTo(a, e, g, t0, t1, j, b, s, ms, ls, o) && OnlyTile(g, o)
      {
        OnlineOne(a, e, g, t0, t1, j, b, s, ms, ls, o);
      }
      assert forall j', b' :: 0 <= b' < g.nb ==> (Before(j', b', j, g.nb) <==> Before(j', b', j + 1, 0));
    }
  }

  // ---------------------------------------------------------------------------
  // Phase (3): o += p * V
  // ---------------------------------------------------------------------------

  // State and weights after the whole tile, output after the keys before n.
  ghost predicate AccSlot(a: Inputs, e: real -> real, g: Tile, t0: nat, t1: nat, n: nat, j: nat, b: nat,
                          s: array2<real>, ms: array<RunMax>, ls: array<real>, o: array3<real>)
    requires Valid(a) && TileOk(a, g) && j < g.nj && b < g.nb && t0 <= t1 <= |a.keys| && n <= |a.keys|
    requires Buffers(a, g, s, ms, ls, o)
    reads s, ms, ls, o
  {
    var r, row, h := Slot(g, j, b), g.b0 + b, g.h0 + j;
    && r < s.Length0
    && StateIs(e, LaneOf(a, row, h), ms[r], ls[r], t1)
    && HeadIs(a, e, row, h, ms[r], n, HeadOf(o, row, h))
    && TileIs(e, LaneOf(a, row, h), ms[r], t0, t1 - t0, RowOf(s, r))
  }

  ghost predicate AccUpTo(a: Inputs, e: real -> real, g: Tile, t0: nat, t1: nat, n: nat, jn: nat, bn: nat,
                          s: array2<real>, ms: array<RunMax>, ls: array<real>, o: array3<real>)
    requires Valid(a) && TileOk(a, g) && t0 <= t1 <= |a.keys| && n <= |a.keys| && Buffers(a, g, s, ms, ls, o)
    reads s, ms, ls, o
  {
    forall j, b :: 0 <= j < g.nj && 0 <= b < g.nb ==>
      if Before(j, b, jn, bn) then n < |a.keys| && AccSlot(a, e, g, t0, t1, n + 1, j, b, s, ms, ls, o)
      else AccSlot(a, e, g, t0, t1, n, j, b, s, ms, ls, o)
  }

  lemma HeadStep(a: Inputs, e: real -> real, b: nat, h: nat, m: RunMax, n: nat, out: Vec, out': Vec, p: real)
    requires Valid(a) && InCall(a, b, h) && n < |a.keys| && HeadIs(a, e, b, h, m, n, out)
    requires p == Weight(e, LaneOf(a, b, h), m, n) && |out'| == a.headDim
    requires forall i :: 0 <= i < a.headDim ==> out'[i] == out[i] + p * a.values[n][KvHead(a, h)][i]
    ensures HeadIs(a, e, b, h, m, n + 1, out')
  {
    ValueShape(a, n, KvHead(a, h));
    hide LaneOf, Column, Weight, Valid, Table;
    forall i | 0 <= i < a.headDim
      ensures out'[i] == Blend(e, LaneOf(a, b, h), Column(a, h, i), m, n + 1)
    {
      assert Column(a, h, i)[n] == a.values[n][KvHead(a, h)][i];
    }
  }

  // p * V for one (row, head), skipped when p is zero.
  method AddValue(a: Inputs, e: real -> real, b: nat, h: nat, kv: nat, t: nat, p: real, ghost m: RunMax, o: array3<real>)
    requires Valid(a) && InCall(a, b, h) && t < |a.keys| && kv == KvHead(a, h)
    requires b < o.Length0 && h < o.Length1 && o.Length2 == a.headDim
    requires p == Weight(e, LaneOf(a, b, h), m, t) && HeadIs(a, e, b, h, m, t, HeadOf(o, b, h))
    modifies o
    ensures HeadIs(a, e, b, h, m, t + 1, HeadOf(o, b, h)) && OnlyHead(o, b, h)
  {
    ValueShape(a, t, kv);
    hide Valid, Table, LaneOf, HeadIs, Weight, KvHead;
    ghost var before := HeadOf(o, b, h);
    if p != 0.0 {
      AddScaled(o, b, h, p, a.values[t][kv]);
    }
    HeadStep(a, e, b, h, m, t, before, HeadOf(o, b, h), p);
  }

  lemma CellWeight(e: real -> real, l: Lane, m: RunMax, t0: nat, t1: nat, t: nat, r: nat, s: array2<real>)
    requires t0 <= t < t1 && t1 - t0 <= s.Length1 && r < s.Length0 && TileIs(e, l, m, t0, t1 - t0, RowOf(s, r))
    ensures Ok(l, t + 1) && s[r, t - t0] == Weight(e, l, m, t)
  {
    assert RowOf(s, r)[t - t0] == Weight(e, l, m, t0 + (t - t0));
  }

  method AddOne(a: Inputs, e: real -> real, g: Tile, t0: nat, t1: nat, t: nat, j: nat, b: nat,
                s: array2<real>, ms: array<RunMax>, ls: array<real>, o: array3<real>)
    requires Valid(a) && TileOk(a, g) && t0 <= t < t1 <= |a.keys| && t1 - t0 <= s.Length1 && j < g.nj && b < g.nb
    requires Buffers(a, g, s, ms, ls, o) && AccUpTo(a, e, g, t0, t1, t, j, b, s, ms, ls, o)
    modifies o
    ensures AccUpTo(a, e, g, t0, t1, t, j, b + 1, s, ms, ls, o)
    ensures OnlyTile(g, o)
  {
    hide Valid, Table, LaneOf, HeadOf, Slot, StateIs, HeadIs, TileIs, RowOf, Weight, KvHead;
    SlotInRange(g, j, b);
    var r, row, h := Slot(g, j, b), g.b0 + b, g.h0 + j;
    assert !Before(j, b, j, b) && AccSlot(a, e, g, t0, t1, t, j, b, s, ms, ls, o);
    CellWeight(e, LaneOf(a, row, h), ms[r], t0, t1, t, r, s);
    AddValue(a, e, row, h, g.kv, t, s[r, t - t0], ms[r], o);
    ghost var bn := b + 1;
    forall j', b' | 0 <= j' < g.nj && 0 <= b' < g.nb
      ensures if Before(j', b', j, bn) then AccSlot(a, e, g, t0, t1, t + 1, j', b', s, ms, ls, o)
              else AccSlot(a, e, g, t0, t1, t, j', b', s, ms, ls, o)
    {
      assert if Before(j', b', j, b) then old(AccSlot(a, e, g, t0, t1, t + 1, j', b', s, ms, ls, o))
             else old(AccSlot(a, e, g, t0, t1, t, j', b', s, ms, ls, o));
    }
  }

  lemma ValueShape(a: Inputs, t: nat, g: nat)
    requires Valid(a) && t < |a.keys| && g < a.nKvHeads0
    ensures |a.values| == |a.keys| && |a.values[t]| == a.nKvHeads0 && |a.values[t][g]| == a.headDim
  {
  }

  lemma AccNextHead(a: Inputs, e: real -> real, g: Tile, t0: nat, t1: nat, n: nat, j: nat,
                    s: array2<real>, ms: array<RunMax>, ls: array<real>, o: array3<real>)
    requires Valid(a) && TileOk(a, g) && t0 <= t1 <= |a.keys| && n <= |a.keys| && Buffers(a, g, s, ms, ls, o)
    requires AccUpTo(a, e, g, t0, t1, n, j, g.nb, s, ms, ls, o)
    ensures AccUpTo(a, e, g, t0, t1, n, j + 1, 0, s, ms, ls, o)
  {
    hide AccSlot, Valid;
    ghost var jn := j + 1;
    forall j', b' | 0 <= j' < g.nj && 0 <= b' < g.nb
      ensures if Before(j', b', jn, 0) then n < |a.keys| && AccSlot(a, e, g, t0, t1, n + 1, j', b', s, ms, ls, o)
              else AccSlot(a, e, g, t0, t1, n, j', b', s, ms, ls, o)
    {
      assert Before(j', b', j, g.nb) <==> Before(j', b', jn, 0);
    }
  }

  lemma AccNextKey(a: Inputs, e: real -> real, g: Tile, t0: nat, t1: nat, n: nat,
                   s: array2<real>, ms: array<RunMax>, ls: array<real>, o: array3<real>)
    requires Valid(a) && TileOk(a, g) && t0 <= t1 <= |a.keys| && n < |a.keys| && Buffers(a, g, s, ms, ls, o)
    requires AccUpTo(a, e, g, t0, t1, n, g.nj, 0, s, ms, ls, o)
    ensures AccUpTo(a, e, g, t0, t1, n + 1, 0, 0, s, ms, ls, o)
  {
    hide AccSlot, Valid;
    ghost var n' := n + 1;
    forall j', b' | 0 <= j' < g.nj && 0 <= b' < g.nb
      ensures !Before(j', b', 0, 0) && AccSlot(a, e, g, t0, t1, n', j', b', s, ms, ls, o)
    {
      assert Before(j', b', g.nj, 0);
    }
  }

  /** Phase (3): adds the weighted values of keys [t0, t1) to all outputs of the tile. */
  method AccumulateTile(a: Inputs, e: real -> real, g: Tile, t0: nat, t1: nat,
                        s: array2<real>, ms: array<RunMax>, ls: array<real>, o: array3<real>)
    requires Valid(a) && TileOk(a, g) && t0 <= t1 <= |a.keys| && t1 - t0 <= s.Length1
    requires Buffers(a, g, s, ms, ls, o) && AccUpTo(a, e, g, t0, t1, t0, 0, 0, s, ms, ls, o)
    modifies o
    ensures AccUpTo(a, e, g, t0, t1, t1, 0, 0, s, ms, ls, o)
    ensures OnlyTile(g, o)
  {
    hide Valid, Table, AccSlot, HeadOf, KvHead, AccUpTo;
    for t := t0 to t1
      invariant AccUpTo(a, e, g, t0, t1, t, 0, 0, s, ms, ls, o) && OnlyTile(g, o)
    {
      for j := 0 to g.nj
        invariant AccUpTo(a, e, g, t0, t1, t, j, 0, s, ms, ls, o) && OnlyTile(g, o)
      {
        for b := 0 to g.nb
          invariant AccUpTo(a, e, g, t0, t1, t, j, b, s, ms, ls, o) && OnlyTile(g, o)
        {
          AddOne(a, e, g, t0, t1, t, j, b, s, ms, ls, o);
        }
        AccNextHead(a, e, g, t0, t1, t, j, s, ms, ls, o);
      }
      AccNextKey(a, e, g, t0, t1, t, s, ms, ls, o);
    }
  }

  // ---------------------------------------------------------------------------
  // All key tiles of one tile of rows and heads
  // ---------------------------------------------------------------------------

  // Between key tiles: state and output of every slot after n keys.
  ghost predicate Ready(a: Inputs, e: real -> real, g: Tile, n: nat, j: nat, b: nat,
                        ms: array<RunMax>, ls: array<real>, o: array3<real>)
    requires Valid(a) && TileOk(a, g) && j < g.nj && b < g.nb && n <= |a.keys|
    requires o.Length0 == |a.positions| && o.Length1 == a.nHeads0 && ms.Length == ls.Length
    reads ms, ls, o
  {
    var r, row, h := Slot(g, j, b), g.b0 + b, g.h0 + j;
    && r < ms.Length
    && StateIs(e, LaneOf(a, row, h), ms[r], ls[r], n)
    && HeadIs(a, e, row, h, ms[r], n, HeadOf(o, row, h))
  }

  ghost predicate AllReady(a: Inputs, e: real -> real, g: Tile, n: nat,
                           ms: array<RunMax>, ls: array<real>, o: array3<real>)
    requires Valid(a) && TileOk(a, g) && n <= |a.keys|
    requires o.Length0 == |a.positions| && o.Length1 == a.nHeads0 && ms.Length == ls.Length
    reads ms, ls, o
  {
    forall j, b :: 0 <= j < g.nj && 0 <= b < g.nb ==> Ready(a, e, g, n, j, b, ms, ls, o)
  }

  lemma StartOnline(a: Inputs, e: real -> real, g: Tile, t0: nat, t1: nat,
                    s: array2<real>, ms: array<RunMax>, ls: array<real>, o: array3<real>)
    requires Valid(a) && TileOk(a, g) && t0 <= t1 <= |a.keys| && Buffers(a, g, s, ms, ls, o)
    requires AllReady(a, e, g, t0, ms, ls, o) && RawUpTo(a, g, t0, t1 - t0, s, 0, 0)
    ensures OnlineUpTo(a, e, g, t0, t1, 0, 0, s, ms, ls, o)
  {
    hide Valid, LaneOf, StateIs, HeadIs, RawIs, RowOf, HeadOf, Slot;
    forall j, b | 0 <= j < g.nj && 0 <= b < g.nb
      ensures !Before(j, b, 0, 0) && Todo(a, e, g, t0, t1, j, b, s, ms, ls, o)
    {
      assert Ready(a, e, g, t0, j, b, ms, ls, o);
      assert !Before(j, b, 0, 0) && RawSlot(a, g, t0, t1 - t0, s, j, b);
    }
  }

  lemma StartAccumulate(a: Inputs, e: real -> real, g: Tile, t0: nat, t1: nat,
                        s: array2<real>, ms: array<RunMax>, ls: array<real>, o: array3<real>)
    requires Valid(a) && TileOk(a, g) && t0 <= t1 <= |a.keys| && Buffers(a, g, s, ms, ls, o)
    requires OnlineUpTo(a, e, g, t0, t1, g.nj, 0, s, ms, ls, o)
    ensures AccUpTo(a, e, g, t0, t1, t0, 0, 0, s, ms, ls, o)
  {
    hide Valid, LaneOf, StateIs, HeadIs, TileIs, RowOf, HeadOf, Slot;
    forall j, b | 0 <= j < g.nj && 0 <= b < g.nb
      ensures !Before(j, b, 0, 0) && AccSlot(a, e, g, t0, t1, t0, j, b, s, ms, ls, o)
    {
      assert Before(j, b, g.nj, 0) && Done(a, e, g, t0, t1, j, b, s, ms, ls, o);
    }
  }

  lemma EndAccumulate(a: Inputs, e: real -> real, g: Tile, t0: nat, t1: nat,
                      s: array2<real>, ms: array<RunMax>, ls: array<real>, o: array3<real>)
    requires Valid(a) && TileOk(a, g) && t0 <= t1 <= |a.keys| && Buffers(a, g, s, ms, ls, o)
    requires AccUpTo(a, e, g, t0, t1, t1, 0, 0, s, ms, ls, o)
    ensures AllReady(a, e, g, t1, ms, ls, o)
  {
    hide Valid, LaneOf, StateIs, HeadIs, TileIs, RowOf, HeadOf, Slot;
    forall j, b | 0 <= j < g.nj && 0 <= b < g.nb
      ensures Ready(a, e, g, t1, j, b, ms, ls, o)
    {
      assert !Before(j, b, 0, 0) && AccSlot(a, e, g, t0, t1, t1, j, b, s, ms, ls, o);
    }
  }

  method KeyTile(a: Inputs, e: real -> real, g: Tile, t0: nat, t1: nat,
                 s: array2<real>, ms: array<RunMax>, ls: array<real>, o: array3<real>)
    requires Valid(a) && IsExp(e) && TileOk(a, g) && t0 <= t1 <= |a.keys| && t1 - t0 <= s.Length1
    requires Buffers(a, g, s, ms, ls, o) && AllReady(a, e, g, t0, ms, ls, o)
    modifies s, ms, ls, o
    ensures AllReady(a, e, g, t1, ms, ls, o) && OnlyTile(g, o)
  {
    hide Valid, Table, HeadOf, KvHead, Ready, RawUpTo, OnlineUpTo, AccUpTo, IsExp;
    ScoreTile(a, g, t0, t1, s);
    assert AllReady(a, e, g, t0, ms, ls, o) by {
      forall j, b | 0 <= j < g.nj && 0 <= b < g.nb
        ensures Ready(a, e, g, t0, j, b, ms, ls, o)
      {
        assert old(Ready(a, e, g, t0, j, b, ms, ls, o));
      }
    }
    StartOnline(a, e, g, t0, t1, s, ms, ls, o);
    OnlineTile(a, e, g, t0, t1, s, ms, ls, o);
    StartAccumulate(a, e, g, t0, t1, s, ms, ls, o);
    AccumulateTile(a, e, g, t0, t1, s, ms, ls, o);
    EndAccumulate(a, e, g, t0, t1, s, ms, ls, o);
  }

  method MaxPosition(a: Inputs, b0: nat, nb: nat) returns (m: nat)
    requires Valid(a) && b0 + nb <= |a.positions| && nb > 0
    ensures m < |a.keys| && forall b :: b0 <= b < b0 + nb ==> a.positions[b] <= m
  {
    m := 0;
    for b := 0 to nb
      invariant m == 0 || m < |a.keys|
      invariant forall c :: b0 <= c < b0 + b ==> a.positions[c] <= m
    {
      if a.positions[b0 + b] > m {
        m := a.positions[b0 + b];
      }
    }
    assert a.positions[b0] < |a.keys|;
  }

  ghost predicate ZeroSlot(g: Tile, o: array3<real>, j: int, b: int)
    requires 0 <= j < g.nj && 0 <= b < g.nb && g.b0 + g.nb <= o.Length0 && g.h0 + g.nj <= o.Length1
    reads o
  {
    var v := HeadOf(o, g.b0 + b, g.h0 + j);
    forall i :: 0 <= i < o.Length2 ==> v[i] == 0.0
  }

  /** memset of every output of the tile; with fresh state this is zero keys processed. */
  method StartTile(a: Inputs, e: real -> real, g: Tile, ms: array<RunMax>, ls: array<real>, o: array3<real>)
    requires Valid(a) && TileOk(a, g) && ms.Length == ls.Length == g.nj * g.nb
    requires o.Length0 == |a.positions| && o.Length1 == a.nHeads0 && o.Length2 == a.headDim
    requires forall r :: 0 <= r < ms.Length ==> ms[r] == NegInf && ls[r] == 0.0
    modifies o
    ensures AllReady(a, e, g, 0, ms, ls, o) && OnlyTile(g, o)
  {
    hide Valid, Table, LaneOf, HeadOf, KvHead, Slot;
    for j := 0 to g.nj
      invariant OnlyTile(g, o)
      invariant forall j', b' :: 0 <= j' < j && 0 <= b' < g.nb ==> ZeroSlot(g, o, j', b')
    {
      for b := 0 to g.nb
        invariant OnlyTile(g, o)
        invariant forall j', b' :: 0 <= j' < j && 0 <= b' < g.nb ==> ZeroSlot(g, o, j', b')
        invariant forall b' :: 0 <= b' < b ==> ZeroSlot(g, o, j, b')
      {
        label Clear:
        ClearHead(o, g.b0 + b, g.h0 + j);
        forall j', b' | 0 <= j' <= j && 0 <= b' < g.nb && (j' < j || b' < b)
          ensures ZeroSlot(g, o, j', b')
        {
          assert old@Clear(ZeroSlot(g, o, j', b'));
        }
        assert ZeroSlot(g, o, j, b);
      }
    }
    forall j, b | 0 <= j < g.nj && 0 <= b < g.nb
      ensures Ready(a, e, g, 0, j, b, ms, ls, o)
    {
      SlotInRange(g, j, b);
      assert ZeroSlot(g, o, j, b);
      assert HeadIs(a, e, g.b0 + b, g.h0 + j, NegInf, 0, HeadOf(o, g.b0 + b, g.h0 + j));
    }
  }

  // ---------------------------------------------------------------------------
  // Normalisation
  // ---------------------------------------------------------------------------

  /** After all keys the sum is positive and dividing by it gives the exact answer. */
  lemma Normalised(a: Inputs, e: real -> real, b: nat, h: nat, m: RunMax, sum: real, n: nat, out: Vec, out': Vec)
    requires Valid(a) && IsExp(e) && InCall(a, b, h) && a.positions[b] < n <= |a.keys|
    requires StateIs(e, LaneOf(a, b, h), m, sum, n) && HeadIs(a, e, b, h, m, n, out)
    ensures sum > 0.0
    ensures |out'| == |out| && (forall i :: 0 <= i < |out| ==> out'[i] == (1.0 / sum) * out[i])
            ==> AnswerIs(a, e, b, h, out')
  {
    hide Valid, Table, LaneOf, ScoreAt, Column, IsExp, Mass, Blend;
    var l, p := LaneOf(a, b, h), a.positions[b] + 1;
    SeesItself(a, b, h);
    assert !NoneSeen(l, n);
    MassPositive(e, l, m, n);
    assert forall t :: p <= t < n ==> l.seen[t] == Sees(a, b, t);
    hide NoneSeen, Sees;
    if |out'| == |out| && (forall i :: 0 <= i < |out| ==> out'[i] == (1.0 / sum) * out[i]) {
      forall i | 0 <= i < a.headDim
        ensures out'[i] == Average(e, l, Column(a, h, i), p)
      {
        UnseenTail(e, l, Column(a, h, i), m, p, n);
        AnyReferenceWorks(e, l, Column(a, h, i), m.m, p);
        TimesInverse(out[i], sum);
      }
    }
  }

  lemma TimesInverse(x: real, y: real)
    requires y > 0.0
    ensures (1.0 / y) * x == x / y
  {
  }

  ghost predicate AnswerAt(a: Inputs, e: real -> real, o: array3<real>, b: nat, h: nat)
    requires Valid(a) && IsExp(e) && InCall(a, b, h) && o.Length0 == |a.positions| && o.Length1 == a.nHeads0
    reads o
  {
    AnswerIs(a, e, b, h, HeadOf(o, b, h))
  }

  ghost predicate AnswerSlot(a: Inputs, e: real -> real, g: Tile, o: array3<real>, j: int, b: int)
    requires Valid(a) && IsExp(e) && TileOk(a, g) && 0 <= j < g.nj && 0 <= b < g.nb
    requires o.Length0 == |a.positions| && o.Length1 == a.nHeads0
    reads o
  {
    AnswerAt(a, e, o, g.b0 + b, g.h0 + j)
  }

  ghost predicate NormalUpTo(a: Inputs, e: real -> real, g: Tile, n: nat, jn: int, bn: int,
                             ms: array<RunMax>, ls: array<real>, o: array3<real>)
    requires Valid(a) && IsExp(e) && TileOk(a, g) && ms.Length == ls.Length && n <= |a.keys|
    requires o.Length0 == |a.positions| && o.Length1 == a.nHeads0
    reads ms, ls, o
  {
    forall j, b :: 0 <= j < g.nj && 0 <= b < g.nb ==>
      if Before(j, b, jn, bn) then AnswerSlot(a, e, g, o, j, b) else Ready(a, e, g, n, j, b, ms, ls, o)
  }

  method NormaliseHead(a: Inputs, e: real -> real, g: Tile, n: nat, j: nat, b: nat,
                       ms: array<RunMax>, ls: array<real>, o: array3<real>)
    requires Valid(a) && IsExp(e) && TileOk(a, g) && ms.Length == ls.Length && j < g.nj && b < g.nb
    requires o.Length0 == |a.positions| && o.Length1 == a.nHeads0 && o.Length2 == a.headDim
    requires a.positions[g.b0 + b] < n <= |a.keys| && Ready(a, e, g, n, j, b, ms, ls, o)
    modifies o
    ensures AnswerAt(a, e, o, g.b0 + b, g.h0 + j) && OnlyHead(o, g.b0 + b, g.h0 + j)
  {
    hide Valid, Table, LaneOf, HeadOf, KvHead, IsExp, HeadIs, StateIs, Slot;
    var row, h, r := g.b0 + b, g.h0 + j, Slot(g, j, b);
    var l := ls[r];
    ghost var before := HeadOf(o, row, h);
    Normalised(a, e, row, h, ms[r], l, n, before, before);
    if l > 0.0 {
      ScaleHead(o, row, h, 1.0 / l);
    }
    Normalised(a, e, row, h, ms[r], l, n, before, HeadOf(o, row, h));
  }

  method NormaliseOne(a: Inputs, e: real -> real, g: Tile, n: nat, j: nat, b: nat,
                      ms: array<RunMax>, ls: array<real>, o: array3<real>)
    requires Valid(a) && IsExp(e) && TileOk(a, g) && ms.Length == ls.Length && j < g.nj && b < g.nb
    requires o.Length0 == |a.positions| && o.Length1 == a.nHeads0 && o.Length2 == a.headDim
    requires a.positions[g.b0 + b] < n <= |a.keys| && NormalUpTo(a, e, g, n, j, b, ms, ls, o)
    modifies o
    ensures NormalUpTo(a, e, g, n, j, b + 1, ms, ls, o) && OnlyTile(g, o)
  {
    hide Valid, Table, LaneOf, HeadOf, KvHead, IsExp, HeadIs, StateIs, Slot;
    assert !Before(j, b, j, b) && Ready(a, e, g, n, j, b, ms, ls, o);
    NormaliseHead(a, e, g, n, j, b, ms, ls, o);
    ghost var bn := b + 1;
    forall j', b' | 0 <= j' < g.nj && 0 <= b' < g.nb
      ensures if Before(j', b', j, bn) then AnswerSlot(a, e, g, o, j', b') else Ready(a, e, g, n, j', b', ms, ls, o)
    {
      assert if Before(j', b', j, b) then old(AnswerSlot(a, e, g, o, j', b')) else old(Ready(a, e, g, n, j', b', ms, ls, o));
    }
  }

  lemma NormalNextHead(a: Inputs, e: real -> real, g: Tile, n: nat, j: nat,
                       ms: array<RunMax>, ls: array<real>, o: array3<real>)
    requires Valid(a) && IsExp(e) && TileOk(a, g) && ms.Length == ls.Length && n <= |a.keys|
    requires o.Length0 == |a.positions| && o.Length1 == a.nHeads0
    requires NormalUpTo(a, e, g, n, j, g.nb, ms, ls, o)
    ensures NormalUpTo(a, e, g, n, j + 1, 0, ms, ls, o)
  {
    hide Valid, IsExp, AnswerSlot, Ready;
    ghost var jn := j + 1;
    forall j', b' | 0 <= j' < g.nj && 0 <= b' < g.nb
      ensures if Before(j', b', jn, 0) then AnswerSlot(a, e, g, o, j', b') else Ready(a, e, g, n, j', b', ms, ls, o)
    {
      assert Before(j', b', j, g.nb) <==> Before(j', b', jn, 0);
    }
  }

  method NormaliseTile(a: Inputs, e: real -> real, g: Tile, n: nat, ms: array<RunMax>, ls: array<real>, o: array3<real>)
    requires Valid(a) && IsExp(e) && TileOk(a, g) && ms.Length == ls.Length && n <= |a.keys|
    requires o.Length0 == |a.positions| && o.Length1 == a.nHeads0 && o.Length2 == a.headDim
    requires forall b :: g.b0 <= b < g.b0 + g.nb ==> a.positions[b] < n
    requires AllReady(a, e, g, n, ms, ls, o)
    modifies o
    ensures forall b, h :: g.b0 <= b < g.b0 + g.nb && g.h0 <= h < g.h0 + g.nj ==> AnswerAt(a, e, o, b, h)
    ensures OnlyTile(g, o)
  {
    hide Valid, Table, HeadOf, KvHead, IsExp, Ready, AnswerAt;
    for j := 0 to g.nj
      invariant OnlyTile(g, o) && NormalUpTo(a, e, g, n, j, 0, ms, ls, o)
    {
      for b := 0 to g.nb
        invariant OnlyTile(g, o) && NormalUpTo(a, e, g, n, j, b, ms, ls, o)
      {
        NormaliseOne(a, e, g, n, j, b, ms, ls, o);
      }
      NormalNextHead(a, e, g, n, j, ms, ls, o);
    }
    forall b, h | g.b0 <= b < g.b0 + g.nb && g.h0 <= h < g.h0 + g.nj
      ensures AnswerAt(a, e, o, b, h)
    {
      assert Before(h - g.h0, b - g.b0, g.nj, 0) && AnswerSlot(a, e, g, o, h - g.h0, b - g.b0);
    }
  }

  // ---------------------------------------------------------------------------
  // The kernel
  // ---------------------------------------------------------------------------

  /** Keys per key tile and rows per query tile; which widths are fast depends on the cache of
      the machine, any are right. */
  datatype Widths = Widths(keys: nat, rows: nat)

  predicate ValidWidths(widths: Widths) {
    widths.keys >= 1 && widths.rows >= 1
  }

  /** One tile of rows and heads: walk the keys in tiles, then normalise. */
  method FusedTile(a: Inputs, e: real -> real, widths: Widths, g: Tile, o: array3<real>)
    requires Valid(a) && IsExp(e) && ValidWidths(widths) && TileOk(a, g) && g.nb > 0
    requires o.Length0 == |a.positions| && o.Length1 == a.nHeads0 && o.Length2 == a.headDim
    modifies o
    ensures forall b, h :: g.b0 <= b < g.b0 + g.nb && g.h0 <= h < g.h0 + g.nj ==> AnswerAt(a, e, o, b, h)
    ensures OnlyTile(g, o)
  {
    hide Valid, HeadOf, IsExp, AllReady, AnswerAt, KvHead;
    var maxPos := MaxPosition(a, g.b0, g.nb);
    var nSlots := g.nj * g.nb;
    var s := new real[nSlots, widths.keys];
    var ms := new RunMax[nSlots](_ => NegInf);
    var ls := new real[nSlots](_ => 0.0);
    StartTile(a, e, g, ms, ls, o);
    var t0 := 0;
    while t0 <= maxPos
      invariant t0 <= maxPos + 1
      invariant AllReady(a, e, g, t0, ms, ls, o) && OnlyTile(g, o)
      decreases maxPos + 1 - t0
    {
      var t1 := if t0 + widths.keys < maxPos + 1 then t0 + widths.keys else maxPos + 1;
      KeyTile(a, e, g, t0, t1, s, ms, ls, o);
      t0 := t1;
    }
    NormaliseTile(a, e, g, maxPos + 1, ms, ls, o);
  }

  // Heads outside [h0, h1) and rows outside [b0, b1) are untouched.
  twostate predicate OnlyWindow(b0: nat, b1: nat, h0: nat, h1: nat, o: array3<real>)
    reads o
  {
    forall b, h :: 0 <= b < o.Length0 && 0 <= h < o.Length1 && !(b0 <= b < b1 && h0 <= h < h1)
      ==> HeadOf(o, b, h) == old(HeadOf(o, b, h))
  }

  /** All row tiles of one head group. */
  method FusedGroup(a: Inputs, e: real -> real, widths: Widths, h0: nat, nj: nat, winBegin: nat, winEnd: nat, o: array3<real>)
    requires Valid(a) && IsExp(e) && ValidWidths(widths) && h0 + nj <= a.nHeads0 && nj > 0 && winBegin <= winEnd <= |a.positions|
    requires forall h :: h0 <= h < h0 + nj ==> KvHead(a, h) == KvHead(a, h0)
    requires o.Length0 == |a.positions| && o.Length1 == a.nHeads0 && o.Length2 == a.headDim
    modifies o
    ensures forall b, h :: winBegin <= b < winEnd && h0 <= h < h0 + nj ==> AnswerAt(a, e, o, b, h)
    ensures OnlyWindow(winBegin, winEnd, h0, h0 + nj, o)
  {
    hide Valid, IsExp, HeadOf, KvHead;
    var bBase := winBegin;
    while bBase < winEnd
      invariant winBegin <= bBase <= winEnd
      invariant forall b, h :: winBegin <= b < bBase && h0 <= h < h0 + nj ==> AnswerAt(a, e, o, b, h)
      invariant OnlyWindow(winBegin, winEnd, h0, h0 + nj, o)
    {
      var bCount := if widths.rows < winEnd - bBase then widths.rows else winEnd - bBase;
      var g := Tile(h0, nj, bBase, bCount, KvHead(a, h0));
      label Start:
      FusedTile(a, e, widths, g, o);
      forall b, h | winBegin <= b < bBase && h0 <= h < h0 + nj
        ensures AnswerAt(a, e, o, b, h)
      {
        assert old@Start(AnswerAt(a, e, o, b, h));
      }
      bBase := bBase + bCount;
    }
  }

  /** The part of one thread: heads [hBegin, hLimit) in steps of `stride`, which is one, or
      kvMul when whole key/value groups are handed out. */
  method FusedKernel(a: Inputs, e: real -> real, widths: Widths, hBegin: nat, hLimit: nat, stride: nat,
                     winBegin: nat, winEnd: nat, o: array3<real>)
    requires Valid(a) && IsExp(e) && ValidWidths(widths) && hBegin <= hLimit <= a.nHeads0 && winBegin <= winEnd <= |a.positions|
    requires stride == 1 || (stride == a.kvMul && hBegin % a.kvMul == 0)
    requires o.Length0 == |a.positions| && o.Length1 == a.nHeads0 && o.Length2 == a.headDim
    modifies o
    ensures forall b, h :: winBegin <= b < winEnd && hBegin <= h < hLimit ==> AnswerAt(a, e, o, b, h)
    ensures OnlyWindow(winBegin, winEnd, hBegin, hLimit, o)
  {
    assert a.kvMul > 0;
    hide Valid, IsExp, HeadOf, KvHead;
    var h0 := hBegin;
    while h0 < hLimit
      invariant hBegin <= h0 <= hLimit
      invariant stride == 1 || h0 % a.kvMul == 0 || h0 == hLimit
      invariant forall b, h :: winBegin <= b < winEnd && hBegin <= h < h0 ==> AnswerAt(a, e, o, b, h)
      invariant OnlyWindow(winBegin, winEnd, hBegin, hLimit, o)
    {
      var nj := if h0 + stride <= hLimit then stride else hLimit - h0;
      GroupKvHead(a, h0, nj, stride);
      label Start:
      FusedGroup(a, e, widths, h0, nj, winBegin, winEnd, o);
      forall b, h | winBegin <= b < winEnd && hBegin <= h < h0
        ensures AnswerAt(a, e, o, b, h)
      {
        assert old@Start(AnswerAt(a, e, o, b, h));
      }
      h0 := h0 + nj;
    }
  }

  // The heads handed out together share a key/value head, and the next group starts aligned.
  lemma GroupKvHead(a: Inputs, h0: nat, nj: nat, stride: nat)
    requires Valid(a) && h0 + nj <= a.nHeads0 && 0 < nj <= stride
    requires stride == 1 || (stride == a.kvMul && h0 % a.kvMul == 0)
    ensures forall h :: h0 <= h < h0 + nj ==> KvHead(a, h) == KvHead(a, h0)
    ensures stride == 1 || (h0 + stride) % a.kvMul == 0
  {
    forall h | h0 <= h < h0 + nj
      ensures KvHead(a, h) == KvHead(a, h0)
    {
      if stride != 1 {
        GroupSharesKvHead(h0, a.kvMul, h - h0);
      }
    }
    if stride != 1 {
      NextGroup(h0, a.kvMul);
    }
  }

  lemma NextGroup(h: nat, k: nat)
    requires k > 0 && h % k == 0
    ensures (h + k) % k == 0
  {
    var q := h / k;
    assert h + k == (q + 1) * k + 0;
    QuotientUnique(h + k, k, q + 1, 0);
  }

  // ---------------------------------------------------------------------------
  // Distribution over threads
  // ---------------------------------------------------------------------------

  // Whole key/value groups are handed out when there are enough of them.
  predicate GroupSplit(a: Inputs, nThreads: nat)
    requires a.kvMul > 0
  {
    a.nHeads0 % a.kvMul == 0 && a.nHeads0 / a.kvMul >= nThreads && a.nHeads0 / a.kvMul > 0
  }

  /** Head h is computed by thread `thread`. */
  predicate OwnedBy(a: Inputs, nThreads: nat, thread: nat, h: nat)
    requires a.kvMul > 0 && nThreads > 0
  {
    if GroupSplit(a, nThreads) then Partition.InPart(a.nHeads0 / a.kvMul, nThreads, thread, h / a.kvMul)
    else Partition.InPart(a.nHeads0, nThreads, thread, h)
  }

  lemma EveryHeadHasOneThread(a: Inputs, nThreads: nat, h: nat)
    requires a.kvMul > 0 && nThreads > 0 && h < a.nHeads0
    ensures exists thread :: 0 <= thread < nThreads && OwnedBy(a, nThreads, thread, h)
    ensures forall p, q :: 0 <= p < nThreads && 0 <= q < nThreads && OwnedBy(a, nThreads, p, h) && OwnedBy(a, nThreads, q, h)
              ==> p == q
  {
    var n, x := if GroupSplit(a, nThreads) then a.nHeads0 / a.kvMul else a.nHeads0,
                if GroupSplit(a, nThreads) then h / a.kvMul else h;
    if GroupSplit(a, nThreads) {
      assert a.nHeads0 == (a.nHeads0 / a.kvMul) * a.kvMul;
      KvHeadBound(h, a.kvMul, a.nHeads0 / a.kvMul);
    }
    Partition.EveryElementHasOneOwner(n, nThreads, x);
    var thread :| 0 <= thread < nThreads && Partition.InPart(n, nThreads, thread, x);
    assert OwnedBy(a, nThreads, thread, h);
  }

  lemma InGroups(x: nat, k: nat, lo: nat, hi: nat)
    requires k > 0
    ensures lo * k <= x < hi * k <==> lo <= x / k < hi
  {
    var q := x / k;
    assert x == q * k + x % k;
    if q >= hi { ProductMonotone(hi, q, k); } else { ProductMonotone(q + 1, hi, k); }
    if q >= lo { ProductMonotone(lo, q, k); } else { ProductMonotone(q + 1, lo, k); }
    assert (q + 1) * k == q * k + k;
  }

  /** `multiheadAttFused_F32` as run by one thread: the exact answer for every row of the
      window and every head the thread owns, and nothing else is written. */
  method FusedThread(a: Inputs, e: real -> real, widths: Widths, nThreads: nat, thread: nat,
                     winBegin: nat, winEnd: nat, o: array3<real>)
    requires Valid(a) && IsExp(e) && ValidWidths(widths) && thread < nThreads && winBegin <= winEnd <= |a.positions|
    requires o.Length0 == |a.positions| && o.Length1 == a.nHeads0 && o.Length2 == a.headDim
    modifies o
    ensures forall b, h :: winBegin <= b < winEnd && 0 <= h < a.nHeads0 && OwnedBy(a, nThreads, thread, h)
              ==> AnswerAt(a, e, o, b, h)
    ensures forall b, h :: 0 <= b < |a.positions| && 0 <= h < a.nHeads0
              && !(winBegin <= b < winEnd && OwnedBy(a, nThreads, thread, h))
              ==> HeadOf(o, b, h) == old(HeadOf(o, b, h))
  {
    assert a.kvMul > 0;
    hide Valid, IsExp, HeadOf, AnswerAt;
    var split := GroupSplit(a, nThreads);
    var n := if split then a.nHeads0 / a.kvMul else a.nHeads0;
    var start := Partition.Start(n, nThreads, thread);
    var end := start + Partition.Count(n, nThreads, thread);
    assert end <= n by { PartFits(n, nThreads, thread); }
    var unit := if split then a.kvMul else 1;
    forall h | 0 <= h < a.nHeads0
      ensures start * unit <= h < end * unit <==> OwnedBy(a, nThreads, thread, h)
    {
      InGroups(h, unit, start, end);
    }
    ProductMonotone(end, n, unit);
    assert n * unit <= a.nHeads0;
    ProductMonotone(start, end, unit);
    if split {
      MultipleOf(start, a.kvMul);
    }
    FusedKernel(a, e, widths, start * unit, end * unit, unit, winBegin, winEnd, o);
  }

  // Every thread has its turn, in whatever order.
  predicate AllThreads(order: seq<nat>, nThreads: nat) {
    && (forall k :: 0 <= k < |order| ==> order[k] < nThreads)
    && (forall thread: nat :: thread < nThreads ==> thread in order)
  }

  /** The whole kernel call: the threads, one after the other in any order, give every row of
      the window the exact answer for every head and leave the other rows alone. */
  method FusedCall(a: Inputs, e: real -> real, widths: Widths, nThreads: nat, order: seq<nat>,
                   winBegin: nat, winEnd: nat, o: array3<real>)
    requires Valid(a) && IsExp(e) && ValidWidths(widths) && nThreads > 0 && AllThreads(order, nThreads)
    requires winBegin <= winEnd <= |a.positions|
    requires o.Length0 == |a.positions| && o.Length1 == a.nHeads0 && o.Length2 == a.headDim
    modifies o
    ensures forall b, h :: winBegin <= b < winEnd && 0 <= h < a.nHeads0 ==> AnswerAt(a, e, o, b, h)
    ensures OnlyWindow(winBegin, winEnd, 0, a.nHeads0, o)
  {
    assert a.kvMul > 0;
    hide Valid, IsExp, HeadOf, OwnedBy;
    for k := 0 to |order|
      invariant OnlyWindow(winBegin, winEnd, 0, a.nHeads0, o)
      invariant forall i, b, h ::
                  0 <= i < k && winBegin <= b < winEnd && 0 <= h < a.nHeads0 && OwnedBy(a, nThreads, order[i], h) ==>
                  AnswerAt(a, e, o, b, h)
    {
      label Start:
      FusedThread(a, e, widths, nThreads, order[k], winBegin, winEnd, o);
      forall i, b, h | 0 <= i <= k && winBegin <= b < winEnd && 0 <= h < a.nHeads0 && OwnedBy(a, nThreads, order[i], h)
        ensures AnswerAt(a, e, o, b, h)
      {
        if !OwnedBy(a, nThreads, order[k], h) {
          assert old@Start(AnswerAt(a, e, o, b, h));
        }
      }
    }
    forall b, h | winBegin <= b < winEnd && 0 <= h < a.nHeads0
      ensures AnswerAt(a, e, o, b, h)
    {
      EveryHeadHasOneThread(a, nThreads, h);
      var thread: nat :| thread < nThreads && OwnedBy(a, nThreads, thread, h);
      assert thread in order;
    }
  }

  lemma PartFits(n: nat, nThreads: nat, thread: nat)
    requires thread < nThreads
    ensures Partition.Start(n, nThreads, thread) + Partition.Count(n, nThreads, thread) <= n
  {
    hide Partition.Start, Partition.Count;
    Partition.NextStart(n, nThreads, thread);
    Partition.StartMonotone(n, nThreads, thread + 1, nThreads);
    Partition.Ends(n, nThreads);
  }

  lemma MultipleOf(q: nat, k: nat)
    requires k > 0
    ensures (q * k) % k == 0
  {
    QuotientUnique(q * k, k, q, 0);
  }

  // ---------------------------------------------------------------------------
  // The direct kernel
  // ---------------------------------------------------------------------------

  /** `softmax_F32`: subtract the maximum, exponentiate, divide by the sum. */
  method SoftmaxInPlace(e: real -> real, x: array<real>, n: nat, ghost l: Lane) returns (ghost m: real)
    requires IsExp(e) && 0 < n <= x.Length && Ok(l, n)
    requires forall t :: 0 <= t < n ==> l.seen[t] && x[t] == l.score[t]
    modifies x
    ensures forall t :: 0 <= t < n ==> l.score[t] <= m
    ensures Mass(e, l, At(m), n) > 0.0
    ensures forall t :: 0 <= t < n ==> x[t] == Share(e, l, m, Mass(e, l, At(m), n), t)
  {
    hide IsExp, Weight, Mass;
    var maxVal := LargestOf(x, n);
    m := maxVal;
    var sum := ExpAll(e, x, n, maxVal, l);
    assert l.seen[0];
    MassPositive(e, l, At(m), n);
    if sum == 0.0 {
      sum := 0.000001;
    }
    DivideAll(x, n, sum);
  }

  method LargestOf(x: array<real>, n: nat) returns (m: real)
    requires 0 < n <= x.Length
    ensures forall t :: 0 <= t < n ==> x[t] <= m
  {
    m := x[0];
    for i := 1 to n
      invariant forall t :: 0 <= t < i ==> x[t] <= m
    {
      if x[i] > m {
        m := x[i];
      }
    }
  }

  method ExpAll(e: real -> real, x: array<real>, n: nat, m: real, ghost l: Lane) returns (sum: real)
    requires n <= x.Length && Ok(l, n)
    requires forall t :: 0 <= t < n ==> l.seen[t] && x[t] == l.score[t]
    modifies x
    ensures sum == Mass(e, l, At(m), n)
    ensures forall t :: 0 <= t < n ==> x[t] == Weight(e, l, At(m), t)
  {
    sum := 0.0;
    for i := 0 to n
      invariant sum == Mass(e, l, At(m), i)
      invariant forall t :: 0 <= t < i ==> x[t] == Weight(e, l, At(m), t)
      invariant forall t :: i <= t < n ==> x[t] == l.score[t]
    {
      x[i] := e(x[i] - m);
      sum := sum + x[i];
    }
  }

  method DivideAll(x: array<real>, n: nat, sum: real)
    requires n <= x.Length && sum > 0.0
    modifies x
    ensures forall t :: 0 <= t < n ==> x[t] == old(x[t]) / sum
  {
    for i := 0 to n
      invariant forall t :: 0 <= t < i ==> x[t] == old(x[t]) / sum
      invariant forall t :: i <= t < n ==> x[t] == old(x[t])
    {
      x[i] := x[i] / sum;
    }
  }

  // A weight, and an output component, already divided by the sum s.
  ghost function Share(e: real -> real, l: Lane, m: real, s: real, t: nat): real
    requires Ok(l, t + 1) && s > 0.0
  {
    Weight(e, l, At(m), t) / s
  }

  ghost function SharedBlend(e: real -> real, l: Lane, x: seq<real>, m: real, s: real, n: nat): real
    requires Ok(l, n) && n <= |x| && s > 0.0
  {
    Blend(e, l, x, At(m), n) / s
  }

  lemma SharedBlendStep(e: real -> real, l: Lane, x: seq<real>, m: real, s: real, n: nat)
    requires Ok(l, n + 1) && n < |x| && s > 0.0
    ensures SharedBlend(e, l, x, m, s, n + 1) == SharedBlend(e, l, x, m, s, n) + Share(e, l, m, s, n) * x[n]
  {
    hide Weight;
    AddShare(Blend(e, l, x, At(m), n), Weight(e, l, At(m), n), x[n], s);
  }

  // The output of (b, h) after the keys before n.
  ghost predicate SharedIs(a: Inputs, e: real -> real, b: nat, h: nat, m: real, s: real, n: nat, out: Vec)
    requires Valid(a) && InCall(a, b, h) && n <= |a.keys| && s > 0.0
  {
    |out| == a.headDim &&
    forall i :: 0 <= i < a.headDim ==> out[i] == SharedBlend(e, LaneOf(a, b, h), Column(a, h, i), m, s, n)
  }

  lemma ShareStep(a: Inputs, e: real -> real, b: nat, h: nat, m: real, s: real, n: nat, out: Vec, out': Vec, p: real)
    requires Valid(a) && InCall(a, b, h) && n < |a.keys| && s > 0.0 && SharedIs(a, e, b, h, m, s, n, out)
    requires p == Share(e, LaneOf(a, b, h), m, s, n) && |out'| == a.headDim
    requires forall i :: 0 <= i < a.headDim ==> out'[i] == out[i] + p * a.values[n][KvHead(a, h)][i]
    ensures SharedIs(a, e, b, h, m, s, n + 1, out')
  {
    ValueShape(a, n, KvHead(a, h));
    hide LaneOf, Column, Share, SharedBlend, Valid, Table;
    forall i | 0 <= i < a.headDim
      ensures out'[i] == SharedBlend(e, LaneOf(a, b, h), Column(a, h, i), m, s, n + 1)
    {
      assert Column(a, h, i)[n] == a.values[n][KvHead(a, h)][i];
      SharedBlendStep(e, LaneOf(a, b, h), Column(a, h, i), m, s, n);
    }
  }

  lemma AddShare(x: real, w: real, v: real, s: real)
    requires s > 0.0
    ensures x / s + (w / s) * v == (x + w * v) / s
  {
    assert (w / s) * v == (w * v) / s;
  }

  lemma LaneLength(a: Inputs, b: nat, h: nat)
    requires Valid(a) && InCall(a, b, h)
    ensures a.positions[b] < |a.keys| && Ok(LaneOf(a, b, h), |a.keys|)
  {
  }

  /** `multiheadAtt_F32` for one head: all scores, one softmax, one weighted sum. It knows no
      block mask. */
  method DirectHead(a: Inputs, e: real -> real, b: nat, h: nat, att: array<real>, o: array3<real>)
    requires Valid(a) && IsExp(e) && InCall(a, b, h) && a.blockSize == 0 && |a.keys| <= att.Length
    requires o.Length0 == |a.positions| && o.Length1 == a.nHeads0 && o.Length2 == a.headDim
    modifies att, o
    ensures AnswerAt(a, e, o, b, h) && OnlyHead(o, b, h)
  {
    hide Valid, Table, LaneOf, HeadOf, IsExp, Mass, Share, SharedIs, AnswerIs;
    ghost var l := LaneOf(a, b, h);
    LaneLength(a, b, h);
    var n := a.positions[b] + 1;
    ScoreAll(a, b, h, att);
    ghost var m := SoftmaxInPlace(e, att, n, l);
    ghost var s := Mass(e, l, At(m), n);
    SumValues(a, e, b, h, n, att, m, s, o);
    SharedIsAnswer(a, e, b, h, m, HeadOf(o, b, h));
  }

  lemma SharedIsAnswer(a: Inputs, e: real -> real, b: nat, h: nat, m: real, out: Vec)
    requires Valid(a) && IsExp(e) && InCall(a, b, h) && Mass(e, LaneOf(a, b, h), At(m), a.positions[b] + 1) > 0.0
    requires SharedIs(a, e, b, h, m, Mass(e, LaneOf(a, b, h), At(m), a.positions[b] + 1), a.positions[b] + 1, out)
    ensures AnswerIs(a, e, b, h, out)
  {
    hide Valid, Table, LaneOf, IsExp, Mass, Column, NoneSeen, Average, SharedBlend;
    var l, n := LaneOf(a, b, h), a.positions[b] + 1;
    SeesItself(a, b, h);
    forall i | 0 <= i < a.headDim
      ensures out[i] == Average(e, l, Column(a, h, i), n)
    {
      SharedIsAverage(e, l, Column(a, h, i), m, n);
    }
  }

  lemma SharedIsAverage(e: real -> real, l: Lane, x: seq<real>, m: real, n: nat)
    requires IsExp(e) && Ok(l, n) && n <= |x| && !NoneSeen(l, n) && Mass(e, l, At(m), n) > 0.0
    ensures SharedBlend(e, l, x, m, Mass(e, l, At(m), n), n) == Average(e, l, x, n)
  {
    hide IsExp, Mass, Blend, NoneSeen, Average;
    AnyReferenceWorks(e, l, x, m, n);
  }

  method AddShared(a: Inputs, e: real -> real, b: nat, h: nat, kv: nat, t: nat, p: real, ghost m: real, ghost s: real, o: array3<real>)
    requires Valid(a) && InCall(a, b, h) && t < |a.keys| && kv == KvHead(a, h) && s > 0.0
    requires b < o.Length0 && h < o.Length1 && o.Length2 == a.headDim
    requires p == Share(e, LaneOf(a, b, h), m, s, t) && SharedIs(a, e, b, h, m, s, t, HeadOf(o, b, h))
    modifies o
    ensures SharedIs(a, e, b, h, m, s, t + 1, HeadOf(o, b, h)) && OnlyHead(o, b, h)
  {
    hide Valid, Table, LaneOf, HeadOf, Share, SharedBlend, Column, KvHead, SharedIs;
    ValueShape(a, t, kv);
    ghost var before := HeadOf(o, b, h);
    AddScaled(o, b, h, p, a.values[t][kv]);
    ShareStep(a, e, b, h, m, s, t, before, HeadOf(o, b, h), p);
  }

  method SumValues(a: Inputs, e: real -> real, b: nat, h: nat, n: nat, att: array<real>, ghost m: real, ghost s: real, o: array3<real>)
    requires Valid(a) && InCall(a, b, h) && n <= |a.keys| <= att.Length && s > 0.0
    requires o.Length0 == |a.positions| && o.Length1 == a.nHeads0 && o.Length2 == a.headDim
    requires forall t :: 0 <= t < n ==> att[t] == Share(e, LaneOf(a, b, h), m, s, t)
    modifies o
    ensures SharedIs(a, e, b, h, m, s, n, HeadOf(o, b, h)) && OnlyHead(o, b, h)
  {
    hide Valid, Table, LaneOf, HeadOf, Share, SharedBlend, Column, KvHead, SharedIs;
    var kv := KvHead(a, h);
    ClearHead(o, b, h);
    EmptyShare(a, e, b, h, m, s, HeadOf(o, b, h));
    for t := 0 to n
      invariant SharedIs(a, e, b, h, m, s, t, HeadOf(o, b, h)) && OnlyHead(o, b, h)
    {
      AddShared(a, e, b, h, kv, t, att[t], m, s, o);
    }
  }

  lemma EmptyShare(a: Inputs, e: real -> real, b: nat, h: nat, m: real, s: real, out: Vec)
    requires Valid(a) && InCall(a, b, h) && s > 0.0
    requires |out| == a.headDim && forall i :: 0 <= i < a.headDim ==> out[i] == 0.0
    ensures SharedIs(a, e, b, h, m, s, 0, out)
  {
  }

  method ScoreAll(a: Inputs, b: nat, h: nat, att: array<real>)
    requires Valid(a) && InCall(a, b, h) && a.blockSize == 0 && |a.keys| <= att.Length
    modifies att
    ensures a.positions[b] < |a.keys|
    ensures forall t :: 0 <= t <= a.positions[b] ==> LaneOf(a, b, h).seen[t] && att[t] == LaneOf(a, b, h).score[t]
  {
    ghost var l := LaneOf(a, b, h);
    hide LaneOf, Dot;
    var kv := KvHead(a, h);
    for t := 0 to a.positions[b] + 1
      invariant forall u :: 0 <= u < t ==> l.seen[u] && att[u] == l.score[u]
    {
      var dot := DotProduct(a.query[b][h], a.keys[t][kv]);
      att[t] := dot / a.root;
      assert l.seen[t] == Sees(a, b, t);
    }
  }

  // The direct kernel hands out heads one by one.
  predicate InPart(a: Inputs, nThreads: nat, thread: nat, h: nat)
    requires nThreads > 0
  {
    Partition.InPart(a.nHeads0, nThreads, thread, h)
  }

  lemma SomeThread(a: Inputs, nThreads: nat, h: nat)
    requires nThreads > 0 && h < a.nHeads0
    ensures exists thread: nat :: thread < nThreads && InPart(a, nThreads, thread, h)
  {
    hide Partition.InPart;
    Partition.EveryElementHasOneOwner(a.nHeads0, nThreads, h);
    var thread :| 0 <= thread < nThreads && Partition.InPart(a.nHeads0, nThreads, thread, h);
    assert InPart(a, nThreads, thread, h);
  }

  /** The direct kernel as run by one thread, over all rows. */
  method DirectThread(a: Inputs, e: real -> real, nThreads: nat, thread: nat, att: array<real>, o: array3<real>)
    requires Valid(a) && IsExp(e) && a.blockSize == 0 && thread < nThreads && |a.keys| <= att.Length
    requires o.Length0 == |a.positions| && o.Length1 == a.nHeads0 && o.Length2 == a.headDim
    modifies att, o
    ensures forall b, h :: 0 <= b < |a.positions| && 0 <= h < a.nHeads0 && InPart(a, nThreads, thread, h)
              ==> AnswerAt(a, e, o, b, h)
    ensures forall b, h :: 0 <= b < |a.positions| && 0 <= h < a.nHeads0 && !InPart(a, nThreads, thread, h)
              ==> HeadOf(o, b, h) == old(HeadOf(o, b, h))
  {
    hide Valid, IsExp, HeadOf, Partition.Start, Partition.Count;
    var start := Partition.Start(a.nHeads0, nThreads, thread);
    var end := start + Partition.Count(a.nHeads0, nThreads, thread);
    PartFits(a.nHeads0, nThreads, thread);
    for row := 0 to |a.positions|
      invariant forall b, h :: 0 <= b < row && start <= h < end ==> AnswerAt(a, e, o, b, h)
      invariant OnlyWindow(0, |a.positions|, start, end, o)
    {
      for head := start to end
        invariant forall b, h :: 0 <= b < row && start <= h < end ==> AnswerAt(a, e, o, b, h)
        invariant forall h :: start <= h < head ==> AnswerAt(a, e, o, row, h)
        invariant OnlyWindow(0, |a.positions|, start, end, o)
      {
        label Start:
        DirectHead(a, e, row, head, att, o);
        forall b, h | (0 <= b < row && start <= h < end) || (b == row && start <= h < head)
          ensures AnswerAt(a, e, o, b, h)
        {
          assert old@Start(AnswerAt(a, e, o, b, h));
        }
      }
    }
  }

  method DirectCall(a: Inputs, e: real -> real, nThreads: nat, order: seq<nat>, att: array<real>, o: array3<real>)
    requires Valid(a) && IsExp(e) && a.blockSize == 0 && nThreads > 0 && AllThreads(order, nThreads) && |a.keys| <= att.Length
    requires o.Length0 == |a.positions| && o.Length1 == a.nHeads0 && o.Length2 == a.headDim
    modifies att, o
    ensures forall b, h :: 0 <= b < |a.positions| && 0 <= h < a.nHeads0 ==> AnswerAt(a, e, o, b, h)
  {
    hide Valid, IsExp, HeadOf, InPart;
    for k := 0 to |order|
      invariant forall i, b, h ::
                  0 <= i < k && 0 <= b < |a.positions| && 0 <= h < a.nHeads0 && InPart(a, nThreads, order[i], h) ==>
                  AnswerAt(a, e, o, b, h)
    {
      label Start:
      DirectThread(a, e, nThreads, order[k], att, o);
      forall i, b, h | 0 <= i <= k && 0 <= b < |a.positions| && 0 <= h < a.nHeads0 && InPart(a, nThreads, order[i], h)
        ensures AnswerAt(a, e, o, b, h)
      {
        if !InPart(a, nThreads, order[k], h) {
          assert old@Start(AnswerAt(a, e, o, b, h));
        }
      }
    }
    forall b, h | 0 <= b < |a.positions| && 0 <= h < a.nHeads0
      ensures AnswerAt(a, e, o, b, h)
    {
      SomeThread(a, nThreads, h);
      var thread: nat :| thread < nThreads && InPart(a, nThreads, thread, h);
      assert thread in order;
    }
  }

  /** Without a block mask the tiled kernel and the direct kernel fill equal outputs: every row of
      the window, every head, whatever the numbers and orders of threads and the tile widths. */
  method KernelsAgree(a: Inputs, e: real -> real, widths: Widths, fusedThreads: nat, fusedOrder: seq<nat>,
                      directThreads: nat, directOrder: seq<nat>, winBegin: nat, winEnd: nat,
                      fused: array3<real>, direct: array3<real>)
    requires Valid(a) && IsExp(e) && ValidWidths(widths) && a.blockSize == 0 && fused != direct
    requires fusedThreads > 0 && AllThreads(fusedOrder, fusedThreads)
    requires directThreads > 0 && AllThreads(directOrder, directThreads)
    requires winBegin <= winEnd <= |a.positions|
    requires fused.Length0 == direct.Length0 == |a.positions| && fused.Length1 == direct.Length1 == a.nHeads0
    requires fused.Length2 == direct.Length2 == a.headDim
    modifies fused, direct
    ensures forall b, h :: winBegin <= b < winEnd && 0 <= h < a.nHeads0 ==> HeadOf(fused, b, h) == HeadOf(direct, b, h)
    ensures OnlyWindow(winBegin, winEnd, 0, a.nHeads0, fused)
  {
    hide Valid, IsExp, HeadOf, AnswerAt, AllThreads;
    FusedCall(a, e, widths, fusedThreads, fusedOrder, winBegin, winEnd, fused);
    label Fused:
    var att := new real[|a.keys|];
    DirectCall(a, e, directThreads, directOrder, att, direct);
    forall b, h | winBegin <= b < winEnd && 0 <= h < a.nHeads0
      ensures HeadOf(fused, b, h) == HeadOf(direct, b, h)
    {
      assert old@Fused(AnswerAt(a, e, fused, b, h));
      AnswersEqual(a, e, fused, direct, b, h);
    }
  }

  lemma AnswersEqual(a: Inputs, e: real -> real, o: array3<real>, o': array3<real>, b: nat, h: nat)
    requires Valid(a) && IsExp(e) && InCall(a, b, h)
    requires o.Length0 == o'.Length0 == |a.positions| && o.Length1 == o'.Length1 == a.nHeads0
    requires AnswerAt(a, e, o, b, h) && AnswerAt(a, e, o', b, h)
    ensures HeadOf(o, b, h) == HeadOf(o', b, h)
  {
    hide Valid, IsExp, HeadOf, Average, LaneOf, Column, NoneSeen;
  }
}
