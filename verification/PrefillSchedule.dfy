/** How a prompt is cut into prefill chunks, with optional padding to whole tiles. */
module PrefillSchedule {
  import opened Common

  // The matrix kernel works on tiles of four rows.
  const TILE_ROWS := 4

  datatype Chunk = Chunk(position: nat, tokens: seq<int>, last: bool)

  function Padded(rows: nat): (total: nat)
    ensures rows <= total < rows + TILE_ROWS && total % TILE_ROWS == 0
  {
    (rows + TILE_ROWS - 1) / TILE_ROWS * TILE_ROWS
  }

  /** Positions to prefill: all prompt tokens but the last one, which decoding starts with. */
  function ScheduledTotal(promptLength: nat, tileAligned: bool): nat
    requires promptLength >= 1
  {
    if tileAligned then Padded(promptLength - 1) else promptLength - 1
  }

  /** All tokens fed to the model, in order. */
  function Fed(chunks: seq<Chunk>): seq<int> {
    if chunks == [] then [] else Fed(chunks[..|chunks| - 1]) + chunks[|chunks| - 1].tokens
  }

  function Repeat(x: int, n: nat): (r: seq<int>)
    ensures |r| == n && forall i :: 0 <= i < n ==> r[i] == x
  {
    seq(n, _ => x)
  }

  // The prompt without its last token, followed by copies of the last one fed.
  function PaddedPrompt(input: seq<int>, total: nat): (r: seq<int>)
    requires |input| >= 1 && total >= |input| - 1 && (|input| == 1 ==> total == 0)
    ensures |r| == total
  {
    if |input| == 1 then [] else input[..|input| - 1] + Repeat(input[|input| - 2], total - (|input| - 1))
  }

  // Chunk j starts where the chunks before it end; all chunks but the last are full.
  predicate Contiguous(chunks: seq<Chunk>, cap: nat) {
    && (forall j :: 0 <= j < |chunks| ==> chunks[j].position == |Fed(chunks[..j])|)
    && (forall j :: 0 <= j < |chunks| ==> 1 <= |chunks[j].tokens| <= cap)
    && (forall j :: 0 <= j < |chunks| - 1 ==> |chunks[j].tokens| == cap)
  }

  lemma FedExtends(chunks: seq<Chunk>, c: Chunk)
    ensures Fed(chunks + [c]) == Fed(chunks) + c.tokens
    ensures forall j :: 0 <= j <= |chunks| ==> (chunks + [c])[..j] == chunks[..j]
  {
    assert (chunks + [c])[..|chunks|] == chunks;
  }

  lemma ContiguousExtends(chunks: seq<Chunk>, c: Chunk, cap: nat)
    requires Contiguous(chunks, cap) && c.position == |Fed(chunks)| && 1 <= |c.tokens| <= cap
    requires chunks == [] || |chunks[|chunks| - 1].tokens| == cap
    ensures Contiguous(chunks + [c], cap)
  {
    FedExtends(chunks, c);
    assert chunks[..|chunks|] == chunks;
    hide Fed;
    var all := chunks + [c];
    forall j | 0 <= j < |all|
      ensures all[j].position == |Fed(all[..j])| && 1 <= |all[j].tokens| <= cap
    {
      assert j < |chunks| ==> all[j] == chunks[j];
    }
    forall j | 0 <= j < |all| - 1
      ensures |all[j].tokens| == cap
    {
      assert all[j] == chunks[j];
    }
  }

  lemma SliceExtends(s: seq<int>, i: nat, j: nat)
    requires i <= j <= |s|
    ensures s[..i] + s[i..j] == s[..j]
  {
  }

  // The rows of one chunk: past the real prompt the last real token is repeated.
  method FillTokens(input: seq<int>, position: nat, batch: nat, ghost total: nat) returns (tokens: seq<int>)
    requires |input| >= 2 && position + batch <= total && total >= |input| - 1
    ensures tokens == PaddedPrompt(input, total)[position..position + batch]
  {
    var realTotal := |input| - 1;
    tokens := [];
    var i := 0;
    while i < batch
      invariant 0 <= i <= batch && |tokens| == i
      invariant forall q :: 0 <= q < i ==> tokens[q] == PaddedPrompt(input, total)[position + q]
    {
      var src := if position + i < realTotal then position + i else realTotal - 1;
      tokens := tokens + [input[src]];
      i := i + 1;
    }
  }

  // Only a chunk that reaches the end is flagged in wave mode; otherwise every chunk is.
  predicate Flagged(chunks: seq<Chunk>, useWave: bool, complete: bool) {
    forall j :: 0 <= j < |chunks| ==> (chunks[j].last <==> !useWave || (complete && j == |chunks| - 1))
  }

  // The chunks made so far feed the first pos tokens of `padded`.
  predicate Covers(chunks: seq<Chunk>, padded: seq<int>, pos: nat, cap: nat, useWave: bool) {
    && pos <= |padded| && Fed(chunks) == padded[..pos]
    && Contiguous(chunks, cap) && Flagged(chunks, useWave, pos == |padded|)
    && (pos < |padded| && chunks != [] ==> |chunks[|chunks| - 1].tokens| == cap)
  }

  lemma CoversMore(chunks: seq<Chunk>, padded: seq<int>, cap: nat, useWave: bool, c: Chunk)
    requires Covers(chunks, padded, c.position, cap, useWave) && c.position < |padded| && cap >= 1
    requires |c.tokens| == if |padded| - c.position < cap then |padded| - c.position else cap
    requires c.tokens == padded[c.position..c.position + |c.tokens|]
    requires c.last <==> !useWave || c.position + |c.tokens| >= |padded|
    ensures Covers(chunks + [c], padded, c.position + |c.tokens|, cap, useWave)
  {
    hide Fed, Contiguous;
    FedExtends(chunks, c);
    ContiguousExtends(chunks, c, cap);
    SliceExtends(padded, c.position, c.position + |c.tokens|);
  }

  /** The chunk loop of a prompt. What is fed is the prompt (padded by repeating its last
      prefilled token), every chunk starts where the one before ends, in wave mode exactly
      the final chunk is flagged as last and otherwise all are, and decoding starts at the last
      prompt token whatever the padding. */
  method PlanPrefill(input: seq<int>, cap: nat, tileAligned: bool, useWave: bool)
      returns (chunks: seq<Chunk>, pos: nat, token: int)
    requires |input| >= 1 && cap >= 1
    ensures Fed(chunks) == PaddedPrompt(input, ScheduledTotal(|input|, tileAligned))
    ensures tileAligned ==> |Fed(chunks)| % 4 == 0 && |input| - 1 <= |Fed(chunks)| < |input| + 3
    ensures !tileAligned ==> |Fed(chunks)| == |input| - 1
    ensures forall q :: 0 <= q < |Fed(chunks)| ==> |input| >= 2 && Fed(chunks)[q] == input[Min(q, |input| - 2)]
    ensures Contiguous(chunks, cap)
    ensures Flagged(chunks, useWave, true)
    ensures pos == |input| - 1 && token == input[pos]
  {
    hide *;
    var realTotal := |input| - 1;
    var total := ScheduledTotal(|input|, tileAligned);
    TotalBounds(|input|, tileAligned);
    ghost var padded := PaddedPrompt(input, total);
    pos, token, chunks := 0, input[0], [];
    NothingCovered(padded, cap, useWave);
    while pos < total
      invariant Covers(chunks, padded, pos, cap, useWave) && pos <= total
      invariant token == input[if pos < realTotal then pos else realTotal]
    {
      var remaining := total - pos;
      var batch := if remaining < cap then remaining else cap;
      var tokens := FillTokens(input, pos, batch, total);
      var c := Chunk(pos, tokens, !useWave || pos + batch >= total);
      CoversMore(chunks, padded, cap, useWave, c);
      chunks := chunks + [c];
      pos := pos + batch;
      token := input[if pos < realTotal then pos else realTotal];
    }
    Complete(chunks, padded, cap, useWave);
    PaddingSpelledOut(input, tileAligned);
    if pos > realTotal {
      pos := realTotal;
      token := input[pos];
    }
  }

  lemma PaddingSpelledOut(input: seq<int>, tileAligned: bool)
    requires |input| >= 1
    ensures var total := ScheduledTotal(|input|, tileAligned);
            && (if tileAligned then total % 4 == 0 && |input| - 1 <= total < |input| + 3 else total == |input| - 1)
            && (|input| == 1 ==> total == 0)
            && forall q :: 0 <= q < total ==> |input| >= 2 && PaddedPrompt(input, total)[q] == input[Min(q, |input| - 2)]
  {
  }

  lemma TotalBounds(promptLength: nat, tileAligned: bool)
    requires promptLength >= 1
    ensures ScheduledTotal(promptLength, tileAligned) >= promptLength - 1
    ensures promptLength == 1 ==> ScheduledTotal(promptLength, tileAligned) == 0
  {
  }

  lemma NothingCovered(padded: seq<int>, cap: nat, useWave: bool)
    ensures Covers([], padded, 0, cap, useWave)
  {
  }

  lemma Complete(chunks: seq<Chunk>, padded: seq<int>, cap: nat, useWave: bool)
    requires Covers(chunks, padded, |padded|, cap, useWave)
    ensures Fed(chunks) == padded && Contiguous(chunks, cap) && Flagged(chunks, useWave, true)
  {
  }

  lemma {:induction false} FullChunks(chunks: seq<Chunk>, cap: nat, k: nat)
    requires Contiguous(chunks, cap) && k < |chunks|
    ensures |Fed(chunks[..k])| == k * cap
  {
    if k > 0 {
      FullChunks(chunks, cap, k - 1);
      assert |chunks[k - 1].tokens| == cap && (k - 1) * cap + cap == k * cap;
      hide Contiguous;
      FedExtends(chunks[..k - 1], chunks[k - 1]);
      assert chunks[..k] == chunks[..k - 1] + [chunks[k - 1]];
      hide Fed;
    }
  }

  lemma WholeTiles(k: nat, cap: nat, rest: nat)
    requires cap % TILE_ROWS == 0 && (k * cap + rest) % TILE_ROWS == 0
    ensures rest % TILE_ROWS == 0
  {
    assert k * cap == TILE_ROWS * (k * (cap / TILE_ROWS));
  }

  lemma AtLeastOne(k: nat, cap: nat)
    requires k >= 1
    ensures k * cap >= cap
  {
  }

  /** Padding removes every partial tile exactly when the chunk size is itself a whole number
      of tiles or the whole prompt fits in one chunk. */
  lemma NoPartialTileExactlyWhen(chunks: seq<Chunk>, cap: nat)
    requires Contiguous(chunks, cap) && |chunks| >= 1 && |Fed(chunks)| % TILE_ROWS == 0
    ensures (forall j :: 0 <= j < |chunks| ==> |chunks[j].tokens| % TILE_ROWS == 0) <==>
            cap % TILE_ROWS == 0 || |Fed(chunks)| <= cap
  {
    hide Fed;
    var n := |chunks|;
    var rest := |chunks[n - 1].tokens|;
    FullChunks(chunks, cap, n - 1);
    FedLength(chunks);
    LastTile(n - 1, cap, rest);
    assert n > 1 ==> |chunks[0].tokens| == cap;
  }

  /** The schedule of nine prompt tokens in chunks of six: padded, and yet a partial tile. */
  lemma SixRowChunks(input: seq<int>)
    requires |input| == 9
    ensures var chunks := [Chunk(0, input[..6], false), Chunk(6, input[6..8], true)];
            && Fed(chunks) == PaddedPrompt(input, ScheduledTotal(9, true))
            && Contiguous(chunks, 6) && Flagged(chunks, true, true)
            && |chunks[0].tokens| % TILE_ROWS != 0
  {
    var padded := PaddedPrompt(input, 8);
    assert padded == input[..8];
    TwoChunks(padded, 6);
  }

  // A sequence cut in two.
  lemma TwoChunks(s: seq<int>, cap: nat)
    requires 1 <= cap < |s| <= 2 * cap
    ensures Covers([Chunk(0, s[..cap], false), Chunk(cap, s[cap..], true)], s, |s|, cap, true)
  {
    var first, second := Chunk(0, s[..cap], false), Chunk(cap, s[cap..], true);
    assert [] + [first] == [first] && [first] + [second] == [first, second];
    hide Covers;
    NothingCovered(s, cap, true);
    CoversMore([], s, cap, true, first);
    CoversMore([first], s, cap, true, second);
  }

  // Rows left for the last of k + 1 chunks.
  lemma LastTile(k: nat, cap: nat, rest: nat)
    requires 1 <= rest <= cap && (k * cap + rest) % TILE_ROWS == 0
    ensures k * cap + rest <= cap <==> k == 0
    ensures cap % TILE_ROWS == 0 || k == 0 ==> rest % TILE_ROWS == 0
  {
    if k == 0 {
      assert k * cap == 0;
    } else {
      AtLeastOne(k, cap);
      if cap % TILE_ROWS == 0 {
        WholeTiles(k, cap, rest);
      }
    }
  }

  lemma FedLength(chunks: seq<Chunk>)
    requires |chunks| >= 1
    ensures |Fed(chunks)| == |Fed(chunks[..|chunks| - 1])| + |chunks[|chunks| - 1].tokens|
  {
  }
}
