/** Encoding of text: split into single-byte and special tokens, then merge the best pair until
    no pair merges. Characters stand for bytes. */
module BpeEncoder {
  import opened Common

  /** The first bosId tokens are regular, the rest special. `find` is the binary search among the
      sorted regular tokens; where strings repeat it may return any of them. */
  datatype Vocab = Vocab(strs: seq<string>, scores: seq<real>, bosId: nat, addBos: bool,
                         maxTokenLength: nat, find: string -> int)

  const FLOOR: real := -10000000000.0

  ghost predicate FindsRegular(V: Vocab) {
    forall piece :: if V.find(piece) == -1 then forall id :: 0 <= id < V.bosId && id < |V.strs| ==> V.strs[id] != piece
                    else 0 <= V.find(piece) < V.bosId && V.find(piece) < |V.strs| && V.strs[V.find(piece)] == piece
  }

  // No token is empty: the loader refuses a tokenizer file with a token of no bytes.
  ghost predicate Valid(V: Vocab) {
    && |V.scores| == |V.strs| && V.bosId < |V.strs| && V.maxTokenLength >= 1
    && (forall id :: 0 <= id < |V.strs| ==> |V.strs[id]| <= V.maxTokenLength)
    && (forall id :: V.bosId <= id < |V.strs| ==> V.strs[id] != "")
    && FindsRegular(V)
  }

  predicate ValidIds(V: Vocab, ids: seq<int>) {
    forall i :: 0 <= i < |ids| ==> 0 <= ids[i] < |V.strs|
  }

  /** The text a token list stands for. */
  function Concat(V: Vocab, ids: seq<int>): string
    requires ValidIds(V, ids)
  {
    if ids == [] then "" else Concat(V, ids[..|ids| - 1]) + V.strs[ids[|ids| - 1]]
  }

  lemma {:induction false} ConcatAppend(V: Vocab, a: seq<int>, b: seq<int>)
    requires ValidIds(V, a) && ValidIds(V, b)
    ensures ValidIds(V, a + b) && Concat(V, a + b) == Concat(V, a) + Concat(V, b)
    decreases |b|
  {
    if b == [] {
      assert a + b == a;
    } else {
      var n := |b| - 1;
      assert (a + b)[..|a + b| - 1] == a + b[..n];
      ConcatAppend(V, a, b[..n]);
      assert Concat(V, a + b) == Concat(V, a + b[..n]) + V.strs[b[n]];
    }
  }

  lemma ConcatOne(V: Vocab, id: int)
    requires 0 <= id < |V.strs|
    ensures ValidIds(V, [id]) && Concat(V, [id]) == V.strs[id]
  {
    assert [id][..0] == [];
  }

  // ---------------------------------------------------------------------------
  // Scratch buffer
  // ---------------------------------------------------------------------------

  // What the bounded print leaves in a buffer of that size, its terminator aside.
  function Print(size: nat, s: string): (r: string)
    requires size >= 1
    ensures |r| == Min(|s|, size - 1) && r == s[..|r|]
  {
    if |s| < size then s else s[..size - 1]
  }

  /** The scratch buffer holds every pair of tokens in full. */
  lemma PairFits(V: Vocab, a: int, b: int)
    requires Valid(V) && 0 <= a < |V.strs| && 0 <= b < |V.strs|
    ensures Print(ScratchSize(V.maxTokenLength), V.strs[a] + V.strs[b]) == V.strs[a] + V.strs[b]
  {
  }

  // ---------------------------------------------------------------------------
  // First pass
  // ---------------------------------------------------------------------------

  predicate IsPrefix(a: string, b: string) {
    |a| <= |b| && b[..|a|] == a
  }

  // The first special token from id on that the text starts with, or -1.
  function SpecialFrom(V: Vocab, text: string, id: nat): (r: int)
    ensures r == -1 || (id <= r < |V.strs| && IsPrefix(V.strs[r], text))
    decreases |V.strs| - id
  {
    if id >= |V.strs| then -1 else if IsPrefix(V.strs[id], text) then id else SpecialFrom(V, text, id + 1)
  }

  method FindSpecialTokenStartWith(V: Vocab, text: string) returns (r: int)
    requires Valid(V)
    ensures r == SpecialFrom(V, text, V.bosId)
  {
    var i := 0;
    while i < |V.strs| - V.bosId
      invariant 0 <= i <= |V.strs| - V.bosId
      invariant SpecialFrom(V, text, V.bosId) == SpecialFrom(V, text, V.bosId + i)
    {
      var id := V.bosId + i;
      if IsPrefix(V.strs[id], text) {
        return id;
      }
      i := i + 1;
    }
    return -1;
  }

  /** What the first pass leaves: its tokens, the bytes that are part of none, and whether these
      always fitted into the scratch buffer. */
  datatype Split = Split(ids: seq<int>, left: string, fits: bool)

  function After(ids: seq<int>, s: Split): Split {
    s.(ids := ids + s.ids)
  }

  // Both assertions of the encoder hold.
  predicate Done(s: Split) {
    s.fits && s.left == ""
  }

  function Special(V: Vocab, text: string, addSpecial: bool): (r: int)
    ensures r == -1 || (V.bosId <= r < |V.strs| && IsPrefix(V.strs[r], text))
  {
    if addSpecial then SpecialFrom(V, text, V.bosId) else -1
  }

  /** The first pass with the bytes of `piece` collected: a special token where the text has one,
      otherwise one more byte, until the bytes collected are a regular token. */
  ghost function FirstPass(V: Vocab, piece: string, text: string, addSpecial: bool): (r: Split)
    requires Valid(V)
    ensures ValidIds(V, r.ids) && |r.ids| <= |text|
    decreases |text|
  {
    if text == "" then Split([], piece, true) else
      var special := Special(V, text, addSpecial);
      var longer := piece + [text[0]];
      if special >= 0 then After([special], FirstPass(V, piece, text[|V.strs[special]|..], addSpecial))
      else if |longer| >= ScratchSize(V.maxTokenLength) then Split([], longer, false)
      else if V.find(longer) != -1 then After([V.find(longer)], FirstPass(V, "", text[1..], addSpecial))
      else FirstPass(V, longer, text[1..], addSpecial)
  }

  /** No special token of the text stands behind bytes that are still being collected. */
  ghost predicate Uninterrupted(V: Vocab, piece: string, text: string, addSpecial: bool)
    requires Valid(V)
    decreases |text|
  {
    if text == "" then true else
      var special := Special(V, text, addSpecial);
      var longer := piece + [text[0]];
      if special >= 0 then piece == "" && Uninterrupted(V, "", text[|V.strs[special]|..], addSpecial)
      else if V.find(longer) != -1 then Uninterrupted(V, "", text[1..], addSpecial)
      else Uninterrupted(V, longer, text[1..], addSpecial)
  }

  /** If so, the tokens and what is left stand for the text, in order. */
  lemma {:induction false} UninterruptedKeepsText(V: Vocab, piece: string, text: string, addSpecial: bool)
    requires Valid(V) && Uninterrupted(V, piece, text, addSpecial) && FirstPass(V, piece, text, addSpecial).fits
    ensures var r := FirstPass(V, piece, text, addSpecial); Concat(V, r.ids) + r.left == piece + text
    decreases |text|
  {
    hide FindsRegular, Concat;
    EmptyConcat(V);
    if text != "" {
      var special := Special(V, text, addSpecial);
      var longer := piece + [text[0]];
      assert text == [text[0]] + text[1..];
      assert longer + text[1..] == piece + text;
      if special >= 0 {
        var n := |V.strs[special]|;
        UninterruptedKeepsText(V, "", text[n..], addSpecial);
        Consed(V, special, FirstPass(V, "", text[n..], addSpecial), text[n..]);
        assert text == text[..n] + text[n..];
      } else if V.find(longer) != -1 {
        FoundString(V, longer);
        UninterruptedKeepsText(V, "", text[1..], addSpecial);
        Consed(V, V.find(longer), FirstPass(V, "", text[1..], addSpecial), text[1..]);
      } else {
        UninterruptedKeepsText(V, longer, text[1..], addSpecial);
      }
    }
  }

  // One token more in front.
  lemma Consed(V: Vocab, id: int, r: Split, rest: string)
    requires 0 <= id < |V.strs| && ValidIds(V, r.ids)
    ensures ValidIds(V, [id] + r.ids) && Concat(V, [id] + r.ids) == V.strs[id] + Concat(V, r.ids)
    ensures Concat(V, [id] + r.ids) + r.left == V.strs[id] + rest <==> Concat(V, r.ids) + r.left == rest
  {
    hide Concat;
    ConcatOne(V, id);
    ConcatAppend(V, [id], r.ids);
    var w, x := V.strs[id], Concat(V, r.ids) + r.left;
    assert Concat(V, [id] + r.ids) + r.left == w + x;
    assert (w + x)[|w|..] == x && (w + rest)[|w|..] == rest;
  }

  lemma {:induction false} NoSpecial(V: Vocab, text: string, from: nat, id: int)
    requires SpecialFrom(V, text, from) == -1 && from <= id < |V.strs|
    ensures !IsPrefix(V.strs[id], text)
    decreases id - from
  {
    if from < id {
      NoSpecial(V, text, from + 1, id);
    }
  }

  /** If not, a special token overtakes the bytes before it. */
  lemma {:induction false} InterruptedLosesText(V: Vocab, piece: string, text: string)
    requires Valid(V) && !Uninterrupted(V, piece, text, true) && Done(FirstPass(V, piece, text, true))
    requires piece != "" ==> SpecialFrom(V, piece + text, V.bosId) == -1
    ensures Concat(V, FirstPass(V, piece, text, true).ids) != piece + text
    decreases |text|
  {
    hide FindsRegular, Concat, SpecialFrom;
    var special := Special(V, text, true);
    var longer := piece + [text[0]];
    assert text == [text[0]] + text[1..];
    assert longer + text[1..] == piece + text;
    if special >= 0 {
      var n := |V.strs[special]|;
      var r := FirstPass(V, piece, text[n..], true);
      if piece == "" {
        InterruptedLosesText(V, "", text[n..]);
        Consed(V, special, r, text[n..]);
        SplitsAt(V, special, text);
      } else {
        NoSpecial(V, piece + text, V.bosId, special);
        Consed(V, special, r, "");
        NotAhead(V, special, Concat(V, r.ids), piece + text);
      }
    } else if V.find(longer) != -1 {
      FoundString(V, longer);
      InterruptedLosesText(V, "", text[1..]);
      Consed(V, V.find(longer), FirstPass(V, "", text[1..], true), text[1..]);
    } else {
      assert piece == "" ==> piece + text == text;
      InterruptedLosesText(V, longer, text[1..]);
    }
  }

  lemma SplitsAt(V: Vocab, id: int, text: string)
    requires 0 <= id < |V.strs| && IsPrefix(V.strs[id], text)
    ensures V.strs[id] + text[|V.strs[id]|..] == text
  {
  }

  lemma NotAhead(V: Vocab, id: int, rest: string, text: string)
    requires 0 <= id < |V.strs| && !IsPrefix(V.strs[id], text)
    ensures V.strs[id] + rest != text
  {
    var w := V.strs[id];
    assert (w + rest)[..|w|] == w;
  }

  /** A first pass that runs to its end without failing an assertion yields tokens that stand for
      the text if and only if no special token was met while bytes were being collected. */
  lemma FirstPassKeepsTextExactlyWhen(V: Vocab, text: string, addSpecial: bool)
    requires Valid(V) && Done(FirstPass(V, "", text, addSpecial))
    ensures Concat(V, FirstPass(V, "", text, addSpecial).ids) == text <==> Uninterrupted(V, "", text, addSpecial)
  {
    hide Concat, FirstPass;
    var r := FirstPass(V, "", text, addSpecial);
    assert Concat(V, r.ids) + r.left == Concat(V, r.ids);
    assert "" + text == text;
    if Uninterrupted(V, "", text, addSpecial) {
      UninterruptedKeepsText(V, "", text, addSpecial);
    } else if addSpecial {
      InterruptedLosesText(V, "", text);
    } else {
      NeverInterrupted(V, "", text);
    }
  }

  lemma {:induction false} NeverInterrupted(V: Vocab, piece: string, text: string)
    requires Valid(V)
    ensures Uninterrupted(V, piece, text, false)
    decreases |text|
  {
    if text != "" {
      NeverInterrupted(V, if V.find(piece + [text[0]]) != -1 then "" else piece + [text[0]], text[1..]);
    }
  }

  /** It can happen: with the tokens "ab" and, special, "<", the text "a<b" becomes "<ab". */
  lemma SpecialTokenOvertakes(V: Vocab)
    requires Valid(V) && V.strs == ["ab", "<"] && V.bosId == 1
    ensures Done(FirstPass(V, "", "a<b", true)) && FirstPass(V, "", "a<b", true).ids == [1, 0]
    ensures Concat(V, [1, 0]) == "<ab" != "a<b"
  {
    Overtaken(V);
    hide FirstPass, Concat;
    ConcatOne(V, 1);
    ConcatOne(V, 0);
    ConcatAppend(V, [1], [0]);
    assert [1] + [0] == [1, 0] && "<" + "ab" == "<ab";
    assert "<ab"[0] != "a<b"[0];
  }

  lemma Overtaken(V: Vocab)
    requires Valid(V) && V.strs == ["ab", "<"] && V.bosId == 1
    ensures FirstPass(V, "", "a<b", true) == Split([1, 0], "", true)
  {
    assert |V.strs[0]| == 2 && |V.strs[1]| == 1;
    assert V.find("a") == -1;
    assert V.find("ab") == 0 by {
      assert V.strs[0] == "ab";
    }
    hide FindsRegular;
    FirstByteDecides(V, "a<b");
    FirstByteDecides(V, "<b");
    FirstByteDecides(V, "b");
    var t := "a<b";
    assert t[1..] == "<b" && t[1..][1..] == "b" && t[1..][1..][1..] == "";
    assert "" + ['a'] == "a" && "a" + ['b'] == "ab";
    assert FirstPass(V, "", "", true) == Split([], "", true);
    assert FirstPass(V, "a", "b", true) == Split([0], "", true);
    assert FirstPass(V, "a", "<b", true) == Split([1, 0], "", true);
  }

  lemma FirstByteDecides(V: Vocab, text: string)
    requires V.strs == ["ab", "<"] && V.bosId == 1 && text != ""
    ensures Special(V, text, true) == if text[0] == '<' then 1 else -1
  {
    assert text[..1] == [text[0]];
    assert SpecialFrom(V, text, 2) == -1;
  }

  predicate BytesRegular(V: Vocab, text: string) {
    forall i :: 0 <= i < |text| ==> V.find([text[i]]) != -1
  }

  /** Where every byte of the text is a regular token nothing is collected for long: no assertion
      fails and no special token interrupts. */
  lemma {:induction false} RegularBytesSplit(V: Vocab, text: string, addSpecial: bool)
    requires Valid(V) && BytesRegular(V, text)
    ensures Done(FirstPass(V, "", text, addSpecial)) && Uninterrupted(V, "", text, addSpecial)
    decreases |text|
  {
    hide FindsRegular, SpecialFrom;
    if text != "" {
      var special := Special(V, text, addSpecial);
      var n := if special >= 0 then |V.strs[special]| else 1;
      assert V.find([text[0]]) != -1 && "" + [text[0]] == [text[0]];
      assert forall i :: 0 <= i < |text[n..]| ==> text[n..][i] == text[n + i];
      RegularBytesSplit(V, text[n..], addSpecial);
    }
  }

  lemma EmptyConcat(V: Vocab)
    ensures Concat(V, []) == ""
  {
  }

  lemma FoundString(V: Vocab, piece: string)
    requires FindsRegular(V) && V.find(piece) != -1
    ensures 0 <= V.find(piece) < |V.strs| && V.strs[V.find(piece)] == piece
  {
  }

  // ---------------------------------------------------------------------------
  // Merging
  // ---------------------------------------------------------------------------

  // The regular token that two tokens merge into, or -1; a low score counts as none.
  function MergedId(V: Vocab, a: int, b: int): int
    requires 0 <= a < |V.strs| && 0 <= b < |V.strs|
  {
    var id := V.find(V.strs[a] + V.strs[b]);
    if 0 <= id < |V.scores| && V.scores[id] > FLOOR then id else -1
  }

  function PairScore(V: Vocab, ids: seq<int>, i: nat): real
    requires ValidIds(V, ids) && i + 1 < |ids|
  {
    var id := MergedId(V, ids[i], ids[i + 1]);
    if 0 <= id < |V.scores| then V.scores[id] else FLOOR
  }

  /** The best of the first n pairs: the leftmost one of highest score, or -1 if none merges. */
  function BestPair(V: Vocab, ids: seq<int>, n: nat): (r: int)
    requires ValidIds(V, ids) && (n == 0 || n < |ids|)
    ensures -1 <= r < n
  {
    if n == 0 then -1
    else
      var best := BestPair(V, ids, n - 1);
      if PairScore(V, ids, n - 1) > (if best == -1 then FLOOR else PairScore(V, ids, best)) then n - 1 else best
  }

  lemma {:induction false} BestPairIsBest(V: Vocab, ids: seq<int>, n: nat)
    requires ValidIds(V, ids) && (n == 0 || n < |ids|)
    ensures var r := BestPair(V, ids, n);
            if r == -1 then forall i :: 0 <= i < n ==> PairScore(V, ids, i) == FLOOR
            else PairScore(V, ids, r) > FLOOR
                 && (forall i :: 0 <= i < n ==> PairScore(V, ids, i) <= PairScore(V, ids, r))
                 && (forall i :: 0 <= i < r ==> PairScore(V, ids, i) < PairScore(V, ids, r))
  {
    if n > 0 {
      BestPairIsBest(V, ids, n - 1);
      assert PairScore(V, ids, n - 1) >= FLOOR;
      hide PairScore;
    }
  }

  function MergeAt(ids: seq<int>, i: nat, id: int): (r: seq<int>)
    requires i + 1 < |ids|
    ensures |r| == |ids| - 1
  {
    ids[..i] + [id] + ids[i + 2..]
  }

  function PairsOf(ids: seq<int>): nat {
    if |ids| == 0 then 0 else |ids| - 1
  }

  /** Merging the best pair until none merges. */
  ghost function MergeAll(V: Vocab, ids: seq<int>): (r: seq<int>)
    requires Valid(V) && ValidIds(V, ids)
    ensures ValidIds(V, r) && |r| <= |ids|
    decreases |ids|
  {
    var best := BestPair(V, ids, PairsOf(ids));
    if best == -1 then ids
    else
      BestPairIsBest(V, ids, PairsOf(ids));
      MergeAll(V, MergeAt(ids, best, MergedId(V, ids[best], ids[best + 1])))
  }

  lemma MergeKeepsText(V: Vocab, ids: seq<int>, i: nat)
    requires Valid(V) && ValidIds(V, ids) && i + 1 < |ids| && MergedId(V, ids[i], ids[i + 1]) != -1
    ensures var r := MergeAt(ids, i, MergedId(V, ids[i], ids[i + 1]));
            ValidIds(V, r) && Concat(V, r) == Concat(V, ids)
  {
    var a, b := ids[i], ids[i + 1];
    var id := MergedId(V, a, b);
    FoundString(V, V.strs[a] + V.strs[b]);
    hide FindsRegular, MergedId, Concat;
    ConcatOne(V, a);
    ConcatOne(V, b);
    ConcatOne(V, id);
    assert [a] + [b] == [a, b];
    ConcatAppend(V, [a], [b]);
    ConcatAppend(V, ids[..i], [a, b]);
    ConcatAppend(V, ids[..i] + [a, b], ids[i + 2..]);
    assert ids[..i] + [a, b] + ids[i + 2..] == ids;
    ConcatAppend(V, ids[..i], [id]);
    ConcatAppend(V, ids[..i] + [id], ids[i + 2..]);
  }

  /** However many merges are made, the tokens stand for the same text. */
  lemma {:induction false} MergeAllKeepsText(V: Vocab, ids: seq<int>)
    requires Valid(V) && ValidIds(V, ids)
    ensures Concat(V, MergeAll(V, ids)) == Concat(V, ids)
    decreases |ids|
  {
    hide Concat, FindsRegular, BestPair, MergeAt;
    var best := BestPair(V, ids, PairsOf(ids));
    if best != -1 {
      BestPairIsBest(V, ids, PairsOf(ids));
      MergeKeepsText(V, ids, best);
      MergeAllKeepsText(V, MergeAt(ids, best, MergedId(V, ids[best], ids[best + 1])));
    }
  }

  /** At the end no two neighbours concatenate to a regular token that scores above the floor. */
  lemma {:induction false} NothingLeftToMerge(V: Vocab, ids: seq<int>, i: nat)
    requires Valid(V) && ValidIds(V, ids) && i + 1 < |MergeAll(V, ids)|
    ensures var r := MergeAll(V, ids);
            var id := V.find(V.strs[r[i]] + V.strs[r[i + 1]]);
            id == -1 || (0 <= id < |V.scores| && V.scores[id] <= FLOOR)
    decreases |ids|
  {
    BestPairIsBest(V, ids, PairsOf(ids));
    var best := BestPair(V, ids, PairsOf(ids));
    hide FindsRegular, BestPair, PairScore, MergeAt, MergedId;
    if best != -1 {
      MergeKeepsValid(V, ids, best);
      NothingLeftToMerge(V, MergeAt(ids, best, MergedId(V, ids[best], ids[best + 1])), i);
    } else {
      NoPair(V, ids, i);
    }
  }

  lemma MergeKeepsValid(V: Vocab, ids: seq<int>, i: nat)
    requires Valid(V) && ValidIds(V, ids) && i + 1 < |ids| && PairScore(V, ids, i) > FLOOR
    ensures ValidIds(V, MergeAt(ids, i, MergedId(V, ids[i], ids[i + 1])))
  {
    hide FindsRegular;
  }

  lemma NoPair(V: Vocab, ids: seq<int>, i: nat)
    requires Valid(V) && ValidIds(V, ids) && i + 1 < |ids| && PairScore(V, ids, i) == FLOOR
    ensures var id := V.find(V.strs[ids[i]] + V.strs[ids[i + 1]]);
            id == -1 || (0 <= id < |V.scores| && V.scores[id] <= FLOOR)
  {
  }

  // ---------------------------------------------------------------------------
  // The encoder
  // ---------------------------------------------------------------------------

  ghost function Opening(V: Vocab, isStart: bool): (ids: seq<int>)
    requires Valid(V)
    ensures ValidIds(V, ids) && |ids| <= 1
  {
    if isStart && V.addBos then [V.bosId] else []
  }

  ghost function Encoding(V: Vocab, text: string, isStart: bool, addSpecial: bool): (ids: seq<int>)
    requires Valid(V)
  {
    var first := FirstPass(V, "", text, addSpecial).ids;
    ConcatAppend(V, Opening(V, isStart), first);
    MergeAll(V, Opening(V, isStart) + first)
  }

  // The string of the begin token if one is added.
  function OpeningText(V: Vocab, isStart: bool): string
    requires V.bosId < |V.strs|
  {
    if isStart && V.addBos then V.strs[V.bosId] else ""
  }

  /** The encoding stands for the text, after the string of the begin token if one was added,
      exactly when its first pass was not interrupted; merging changes nothing about that. */
  lemma EncodingKeepsTextExactlyWhen(V: Vocab, text: string, isStart: bool, addSpecial: bool)
    requires Valid(V) && Done(FirstPass(V, "", text, addSpecial))
    ensures ValidIds(V, Encoding(V, text, isStart, addSpecial))
    ensures Concat(V, Encoding(V, text, isStart, addSpecial)) == OpeningText(V, isStart) + text <==>
            Uninterrupted(V, "", text, addSpecial)
  {
    var a, b := Opening(V, isStart), FirstPass(V, "", text, addSpecial).ids;
    hide MergeAll, FirstPass, FindsRegular, Uninterrupted;
    ConcatAppend(V, a, b);
    MergeAllKeepsText(V, a + b);
    FirstPassKeepsTextExactlyWhen(V, text, addSpecial);
    if isStart && V.addBos {
      ConcatOne(V, V.bosId);
    }
    var w, x := OpeningText(V, isStart), Concat(V, b);
    assert Concat(V, a) == w;
    assert (w + x)[|w|..] == x && (w + text)[|w|..] == text;
  }

  // The scan over all pairs; each pair is printed into the scratch buffer and looked up.
  method FindBestPair(V: Vocab, tokens: array<int>, n: nat) returns (bestIdx: int, bestId: int)
    requires Valid(V) && n <= tokens.Length && ValidIds(V, tokens[..n])
    ensures bestIdx == BestPair(V, tokens[..n], PairsOf(tokens[..n]))
    ensures bestIdx != -1 ==> bestId == MergedId(V, tokens[bestIdx], tokens[bestIdx + 1]) != -1
  {
    hide *;
    ghost var ids := tokens[..n];
    var bestScore := FLOOR;
    bestIdx, bestId := -1, -1;
    ScanStarts(V, ids);
    var i := 0;
    while i < n - 1
      invariant 0 <= i && (i <= n - 1 || i == 0)
      invariant Scanned(V, ids, i, bestIdx, bestId, bestScore)
    {
      PairInRange(V, ids, i);
      PairFits(V, tokens[i], tokens[i + 1]);
      PositiveBuffer(V);
      var strBuffer := Print(ScratchSize(V.maxTokenLength), V.strs[tokens[i]] + V.strs[tokens[i + 1]]);
      var id := V.find(strBuffer);
      ScanStep(V, ids, i, bestIdx, bestId, bestScore);
      if id != -1 && V.scores[id] > bestScore {
        bestScore := V.scores[id];
        bestId := id;
        bestIdx := i;
      }
      i := i + 1;
    }
    ScanEnds(V, ids, i, bestIdx, bestId, bestScore);
  }

  // The scan's variables after the first i pairs.
  predicate Scanned(V: Vocab, ids: seq<int>, i: nat, bestIdx: int, bestId: int, bestScore: real) {
    && ValidIds(V, ids) && (i == 0 || i < |ids|) && bestIdx == BestPair(V, ids, i)
    && (if bestIdx == -1 then bestScore == FLOOR
        else bestScore == PairScore(V, ids, bestIdx) > FLOOR && bestId == MergedId(V, ids[bestIdx], ids[bestIdx + 1]))
  }

  lemma ScanStarts(V: Vocab, ids: seq<int>)
    requires ValidIds(V, ids)
    ensures Scanned(V, ids, 0, -1, -1, FLOOR)
  {
  }

  lemma PairInRange(V: Vocab, ids: seq<int>, i: nat)
    requires ValidIds(V, ids) && i + 1 < |ids|
    ensures 0 <= ids[i] < |V.strs| && 0 <= ids[i + 1] < |V.strs|
  {
  }

  lemma PositiveBuffer(V: Vocab)
    ensures ScratchSize(V.maxTokenLength) >= 1
  {
  }

  lemma ScanStep(V: Vocab, ids: seq<int>, i: nat, bestIdx: int, bestId: int, bestScore: real)
    requires Valid(V) && Scanned(V, ids, i, bestIdx, bestId, bestScore) && i + 1 < |ids|
    ensures ValidIds(V, ids)
    ensures var id := V.find(V.strs[ids[i]] + V.strs[ids[i + 1]]);
            (id != -1 ==> 0 <= id < |V.scores|)
            && if id != -1 && V.scores[id] > bestScore then Scanned(V, ids, i + 1, i, id, V.scores[id])
               else Scanned(V, ids, i + 1, bestIdx, bestId, bestScore)
  {
    LookUp(V, ids, i);
    hide FindsRegular, PairScore, MergedId;
  }

  lemma ScanEnds(V: Vocab, ids: seq<int>, i: nat, bestIdx: int, bestId: int, bestScore: real)
    requires Valid(V) && Scanned(V, ids, i, bestIdx, bestId, bestScore) && i + 1 >= |ids|
    ensures ValidIds(V, ids) && bestIdx == BestPair(V, ids, PairsOf(ids))
    ensures bestIdx != -1 ==> bestIdx + 1 < |ids| && bestId == MergedId(V, ids[bestIdx], ids[bestIdx + 1]) != -1
  {
    if bestIdx != -1 {
      ScoredPairMerges(V, ids, bestIdx);
    }
  }

  lemma LookUp(V: Vocab, ids: seq<int>, i: nat)
    requires Valid(V) && ValidIds(V, ids) && i + 1 < |ids|
    ensures var id := V.find(V.strs[ids[i]] + V.strs[ids[i + 1]]);
            && (id == -1 ==> PairScore(V, ids, i) == FLOOR)
            && (id != -1 ==> 0 <= id < |V.scores|)
            && (id != -1 && V.scores[id] > FLOOR ==> PairScore(V, ids, i) == V.scores[id] && MergedId(V, ids[i], ids[i + 1]) == id)
            && (id != -1 && V.scores[id] <= FLOOR ==> PairScore(V, ids, i) == FLOOR)
  {
  }

  lemma ScoredPairMerges(V: Vocab, ids: seq<int>, i: nat)
    requires Valid(V) && ValidIds(V, ids) && i + 1 < |ids| && PairScore(V, ids, i) > FLOOR
    ensures MergedId(V, ids[i], ids[i + 1]) != -1
  {
  }

  // Replace a pair by one token and close the gap.
  method MergeInPlace(tokens: array<int>, n: nat, idx: nat, id: int)
    requires idx + 1 < n <= tokens.Length
    modifies tokens
    ensures tokens[..n - 1] == MergeAt(old(tokens[..n]), idx, id)
  {
    tokens[idx] := id;
    var i := idx + 1;
    while i < n - 1
      invariant idx + 1 <= i <= n - 1
      invariant forall q :: 0 <= q < idx ==> tokens[q] == old(tokens[q])
      invariant tokens[idx] == id
      invariant forall q :: idx < q < i ==> tokens[q] == old(tokens[q + 1])
      invariant forall q :: i <= q < n ==> tokens[q] == old(tokens[q])
    {
      tokens[i] := tokens[i + 1];
      i := i + 1;
    }
  }

  lemma MergeAllStep(V: Vocab, ids: seq<int>)
    requires Valid(V) && ValidIds(V, ids)
    ensures var best := BestPair(V, ids, PairsOf(ids));
            if best == -1 then MergeAll(V, ids) == ids
            else best + 1 < |ids| && 0 <= ids[best] < |V.strs| && 0 <= ids[best + 1] < |V.strs|
                 && (var r := MergeAt(ids, best, MergedId(V, ids[best], ids[best + 1]));
                     ValidIds(V, r) && MergeAll(V, ids) == MergeAll(V, r))
  {
    BestPairIsBest(V, ids, PairsOf(ids));
    hide FindsRegular, BestPair;
  }

  method MergePairs(V: Vocab, tokens: array<int>, n0: nat) returns (n: nat)
    requires Valid(V) && n0 <= tokens.Length && ValidIds(V, tokens[..n0])
    modifies tokens
    ensures n <= tokens.Length && ValidIds(V, tokens[..n]) && tokens[..n] == MergeAll(V, old(tokens[..n0]))
  {
    hide *;
    n := n0;
    ghost var start := tokens[..n0];
    while true
      invariant n <= tokens.Length && ValidIds(V, tokens[..n])
      invariant MergeAll(V, tokens[..n]) == MergeAll(V, start)
      decreases n
    {
      var bestIdx, bestId := FindBestPair(V, tokens, n);
      if bestIdx == -1 {
        MergeAllStep(V, tokens[..n]);
        break;
      }
      ghost var ids := tokens[..n];
      MergeAllStep(V, ids);
      MergeInPlace(tokens, n, bestIdx, bestId);
      n := n - 1;
    }
  }

  // The first pass: append the tokens of the text to the n0 tokens already there; on a failed
  // assertion `ok` is false.
  method SplitText(V: Vocab, text: string, tokens: array<int>, n0: nat, addSpecial: bool) returns (n: nat, ok: bool)
    requires Valid(V) && n0 + |text| <= tokens.Length
    modifies tokens
    ensures ok <==> Done(FirstPass(V, "", text, addSpecial))
    ensures n <= tokens.Length
    ensures ok ==> tokens[..n] == old(tokens[..n0]) + FirstPass(V, "", text, addSpecial).ids
  {
    hide *;
    WholeText(text);
    n := n0;
    ghost var all := After(tokens[..n0], FirstPass(V, "", text, addSpecial));
    AfterKeeps(tokens[..n0], FirstPass(V, "", text, addSpecial));
    var c := 0;
    var piece: string := "";
    while c < |text|
      invariant 0 <= c <= |text| && n <= n0 + c
      invariant After(tokens[..n], FirstPass(V, piece, text[c..], addSpecial)) == all
    {
      FirstPassStep(V, piece, text, c, addSpecial, tokens[..n]);
      ghost var before := tokens[..n];
      var special := -1;
      if addSpecial {
        special := FindSpecialTokenStartWith(V, text[c..]);
      }
      if special >= 0 {
        tokens[n] := special;
        n := n + 1;
        c := c + |V.strs[special]|;
        assert tokens[..n] == before + [special];
      } else {
        piece := piece + [text[c]];
        if |piece| >= ScratchSize(V.maxTokenLength) {
          return n, false;
        }
        var id := V.find(piece);
        if id != -1 {
          tokens[n] := id;
          n := n + 1;
          piece := "";
          assert tokens[..n] == before + [id];
        }
        c := c + 1;
      }
    }
    assert text[c..] == "";
    TextUsedUp(V, piece, addSpecial, tokens[..n]);
    ok := piece == "";
  }

  lemma AfterKeeps(ids: seq<int>, s: Split)
    ensures Done(After(ids, s)) == Done(s) && After(ids, s).ids == ids + s.ids
  {
  }

  /** The encoder. The caller's array has room for the text and one more token. It fails an
      assertion exactly when the first pass does, otherwise it ends with the merged tokens, which
      stand for the text exactly when the first pass was not interrupted. */
  method Encode(V: Vocab, text: string, tokens: array<int>, isStart: bool, addSpecial: bool) returns (n: nat, ok: bool)
    requires Valid(V) && tokens.Length >= |text| + 1
    modifies tokens
    ensures ok <==> Done(FirstPass(V, "", text, addSpecial))
    ensures ok ==> n <= tokens.Length && tokens[..n] == Encoding(V, text, isStart, addSpecial) && ValidIds(V, tokens[..n])
    ensures ok ==> (Concat(V, tokens[..n]) == OpeningText(V, isStart) + text <==> Uninterrupted(V, "", text, addSpecial))
    ensures BytesRegular(V, text) ==> ok && Concat(V, tokens[..n]) == OpeningText(V, isStart) + text
  {
    hide Concat, MergeAll, FindsRegular, ValidIds, FirstPass, SpecialFrom, BytesRegular, PairScore, BestPair, Uninterrupted;
    n := 0;
    if isStart && V.addBos {
      tokens[0] := V.bosId;
      n := 1;
    }
    assert tokens[..n] == Opening(V, isStart);
    if BytesRegular(V, text) {
      RegularBytesSplit(V, text, addSpecial);
    }
    n, ok := SplitText(V, text, tokens, n, addSpecial);
    if ok {
      AllValid(V, Opening(V, isStart), FirstPass(V, "", text, addSpecial).ids);
      n := MergePairs(V, tokens, n);
      EncodingKeepsTextExactlyWhen(V, text, isStart, addSpecial);
    }
  }

  lemma WholeText(text: string)
    ensures text[0..] == text
  {
  }

  lemma TextUsedUp(V: Vocab, piece: string, addSpecial: bool, before: seq<int>)
    requires Valid(V)
    ensures After(before, FirstPass(V, piece, "", addSpecial)) == Split(before, piece, true)
    ensures Done(Split(before, piece, true)) <==> piece == ""
  {
    assert before + [] == before;
  }

  lemma AllValid(V: Vocab, a: seq<int>, b: seq<int>)
    requires ValidIds(V, a) && ValidIds(V, b)
    ensures ValidIds(V, a + b)
  {
  }

  // One turn of the loop, with the tokens so far.
  lemma FirstPassStep(V: Vocab, piece: string, text: string, c: nat, addSpecial: bool, before: seq<int>)
    requires Valid(V) && c < |text|
    ensures var special := if addSpecial then SpecialFrom(V, text[c..], V.bosId) else -1;
            var longer := piece + [text[c]];
            var all := After(before, FirstPass(V, piece, text[c..], addSpecial));
            if special >= 0 then
              1 <= |V.strs[special]| <= |text| - c
              && all == After(before + [special], FirstPass(V, piece, text[c + |V.strs[special]|..], addSpecial))
            else if |longer| >= ScratchSize(V.maxTokenLength) then !Done(all)
            else if V.find(longer) != -1 then
              all == After(before + [V.find(longer)], FirstPass(V, "", text[c + 1..], addSpecial))
            else all == After(before, FirstPass(V, longer, text[c + 1..], addSpecial))
  {
    hide FindsRegular, SpecialFrom;
    var rest := text[c..];
    var special := Special(V, rest, addSpecial);
    var k := if special >= 0 then |V.strs[special]| else 1;
    assert rest[k..] == text[c + k..];
    forall id, r: Split
      ensures After(before, After([id], r)) == After(before + [id], r)
    {
      assert before + ([id] + r.ids) == before + [id] + r.ids;
    }
  }
}
