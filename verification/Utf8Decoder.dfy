/** Streaming detokenisation: tokens may end in the middle of a multi-byte character, so
    incomplete bytes are kept back until the next token. */
module Utf8Decoder {
  import opened Common

  // ---------------------------------------------------------------------------
  // Byte classes and well-formed text
  // ---------------------------------------------------------------------------

  /** Length of the sequence a lead byte starts; 0 for a byte that cannot lead. The lead ranges
      are wider than those of section 4 of RFC 3629: C0, C1 and F5 to F7 are accepted. */
  function Need(c: byte): nat {
    if c <= 0x7f then 1
    else if 0xc0 <= c <= 0xdf then 2
    else if 0xe0 <= c <= 0xef then 3
    else if 0xf0 <= c <= 0xf7 then 4
    else 0
  }

  predicate Continues(c: byte) {
    0x80 <= c <= 0xbf
  }

  // The start of a character, possibly all of it.
  predicate Started(s: Bytes) {
    1 <= |s| <= Need(s[0]) && forall i :: 1 <= i < |s| ==> Continues(s[i])
  }

  predicate OneChar(s: Bytes) {
    Started(s) && |s| == Need(s[0])
  }

  /** A sequence of whole characters. */
  predicate WellFormed(s: Bytes) {
    s == [] || (0 < Need(s[0]) <= |s| && OneChar(s[..Need(s[0])]) && WellFormed(s[Need(s[0])..]))
  }

  /** Whole characters followed by at most one character that is cut off. */
  predicate Proper(s: Bytes) {
    s == []
    || (if 0 < Need(s[0]) <= |s| then OneChar(s[..Need(s[0])]) && Proper(s[Need(s[0])..]) else Started(s))
  }

  // Bytes of the whole characters at the front.
  function Whole(s: Bytes): (n: nat)
    ensures n <= |s|
  {
    if s != [] && 0 < Need(s[0]) <= |s| then Need(s[0]) + Whole(s[Need(s[0])..]) else 0
  }

  lemma {:induction false} WholeIsWellFormed(s: Bytes)
    requires Proper(s)
    ensures WellFormed(s[..Whole(s)]) && (s[Whole(s)..] == [] || Started(s[Whole(s)..])) && |s| - Whole(s) <= 3
    decreases |s|
  {
    if s != [] && 0 < Need(s[0]) <= |s| {
      var n := Need(s[0]);
      WholeIsWellFormed(s[n..]);
      var w := s[..Whole(s)];
      assert w[..n] == s[..n] && w[n..] == s[n..][..Whole(s[n..])];
      assert s[Whole(s)..] == s[n..][Whole(s[n..])..];
    }
  }

  lemma StartCut(s: Bytes, more: Bytes)
    requires Proper(s + more) && s != [] && !(0 < Need(s[0]) <= |s|)
    ensures Started(s)
  {
    var all := s + more;
    var n := Need(s[0]);
    assert all[0] == s[0];
    forall i | 1 <= i < |s|
      ensures Continues(s[i])
    {
      assert s[i] == all[i];
      if n <= |all| {
        assert all[..n][i] == all[i];
      }
    }
  }

  /** Reading on after whole characters: they can be cut off the front. */
  lemma {:induction false} CutFront(s: Bytes, more: Bytes)
    requires Proper(s + more)
    ensures Proper(s) && Proper(s[Whole(s)..] + more) && Whole(s + more) == Whole(s) + Whole(s[Whole(s)..] + more)
    decreases |s|
  {
    var all := s + more;
    if s == [] {
      assert all == more && s[Whole(s)..] + more == more;
    } else if 0 < Need(s[0]) <= |s| {
      var n := Need(s[0]);
      assert all[..n] == s[..n] && all[n..] == s[n..] + more;
      CutFront(s[n..], more);
      assert s[Whole(s)..] == s[n..][Whole(s[n..])..];
    } else {
      StartCut(s, more);
      hide Proper, OneChar, Started, Continues;
      assert s[Whole(s)..] + more == all;
    }
  }

  lemma {:induction false} WellFormedAppend(a: Bytes, b: Bytes)
    requires WellFormed(a) && WellFormed(b)
    ensures WellFormed(a + b)
    decreases |a|
  {
    if a == [] {
      assert a + b == b;
    } else {
      var n := Need(a[0]);
      assert (a + b)[..n] == a[..n] && (a + b)[n..] == a[n..] + b;
      WellFormedAppend(a[n..], b);
    }
  }

  lemma OneCharIsWellFormed(c: Bytes)
    requires OneChar(c)
    ensures WellFormed(c)
  {
    assert c[..|c|] == c && c[|c|..] == [];
  }

  lemma {:induction false} WellFormedThenStart(a: Bytes, b: Bytes)
    requires WellFormed(a) && Incomplete(b)
    ensures Proper(a + b)
    decreases |a|
  {
    if a == [] {
      assert a + b == b;
    } else {
      var n := Need(a[0]);
      assert (a + b)[..n] == a[..n] && (a + b)[n..] == a[n..] + b;
      WellFormedThenStart(a[n..], b);
    }
  }

  // ---------------------------------------------------------------------------
  // What is shown of any bytes
  // ---------------------------------------------------------------------------

  // U+FFFD, which stands for bytes that make no character.
  const REPLACEMENT: Bytes := [0xef, 0xbf, 0xbd]

  // How many of the first n bytes continue a character, up to one that does not.
  function Follow(s: Bytes, n: nat): (k: nat)
    ensures k <= n && k <= |s|
  {
    if n == 0 || s == [] || !Continues(s[0]) then 0 else 1 + Follow(s[1..], n - 1)
  }

  // Bytes at the front that belong together: a character as far as it goes, or one byte that
  // starts none.
  function Extent(s: Bytes): (j: nat)
    requires s != []
    ensures 1 <= j <= |s|
  {
    1 + Follow(s[1..], if Need(s[0]) > 0 then Need(s[0]) - 1 else 0)
  }

  /** The text shown of some bytes: whole characters are copied; of the bytes between them,
      however many, one replacement character remains, put before the next whole character.
      `bad` says that such bytes came before. */
  function Shown(s: Bytes, bad: bool): Bytes
    decreases |s|
  {
    if s == [] then []
    else
      var j := Extent(s);
      if Need(s[0]) == j then (if bad then REPLACEMENT else []) + s[..j] + Shown(s[j..], false)
      else Shown(s[j..], true)
  }

  /** Where the last whole character ends; what lies behind is kept. */
  function End(s: Bytes): (e: nat)
    ensures e <= |s|
    decreases |s|
  {
    if s == [] then 0
    else
      var j := Extent(s);
      if Need(s[0]) == j || End(s[j..]) > 0 then j + End(s[j..]) else 0
  }

  lemma {:induction false} FollowAll(s: Bytes, n: nat, k: nat)
    requires k <= n && k <= |s| && (forall i :: 0 <= i < k ==> Continues(s[i]))
    requires k == n || k == |s| || !Continues(s[k])
    ensures Follow(s, n) == k
  {
    if k > 0 {
      assert forall i :: 0 <= i < k - 1 ==> s[1..][i] == s[i + 1];
      FollowAll(s[1..], n - 1, k - 1);
    }
  }

  lemma {:induction false} Followed(s: Bytes, n: nat)
    ensures forall i :: 0 <= i < Follow(s, n) ==> Continues(s[i])
    ensures Follow(s, n) == n || Follow(s, n) == |s| || !Continues(s[Follow(s, n)])
  {
    if !(n == 0 || s == [] || !Continues(s[0])) {
      Followed(s[1..], n - 1);
      assert forall i :: 0 < i < Follow(s, n) ==> s[i] == s[1..][i - 1];
    }
  }

  // The first k bytes are a character as far as it goes.
  lemma ExtentIs(s: Bytes, k: nat)
    requires 1 <= k <= |s| && Started(s[..k]) && (k == Need(s[0]) || k == |s| || !Continues(s[k]))
    ensures Extent(s) == k
  {
    forall i | 0 <= i < k - 1
      ensures Continues(s[1..][i])
    {
      assert s[1..][i] == s[..k][i + 1];
    }
    FollowAll(s[1..], Need(s[0]) - 1, k - 1);
  }

  lemma ExtentOf(s: Bytes)
    requires s != []
    ensures Need(s[0]) == 0 ==> Extent(s) == 1
    ensures Need(s[0]) > 0 ==> Started(s[..Extent(s)])
    ensures Need(s[0]) == Extent(s) ==> OneChar(s[..Extent(s)])
    ensures Need(s[0]) == 0 || Extent(s) == Need(s[0]) || Extent(s) == |s| || !Continues(s[Extent(s)])
  {
    Followed(s[1..], if Need(s[0]) > 0 then Need(s[0]) - 1 else 0);
    var j := Extent(s);
    assert forall i :: 1 <= i < j ==> s[..j][i] == s[1..][i - 1];
  }

  lemma ExtentKept(s: Bytes, more: Bytes)
    requires s != [] && (Extent(s) < |s| || Extent(s) == Need(s[0]))
    ensures Extent(s + more) == Extent(s)
  {
    ExtentOf(s);
    var all, j := s + more, Extent(s);
    assert all[..j] == s[..j] && all[0] == s[0];
    if Need(s[0]) > 0 {
      ExtentIs(all, j);
    }
  }

  /** The text is well formed whatever the bytes ... */
  lemma {:induction false} ShownIsWellFormed(s: Bytes, bad: bool)
    ensures WellFormed(Shown(s, bad))
    decreases |s|
  {
    hide Extent, OneChar;
    if s != [] {
      var j := Extent(s);
      ExtentOf(s);
      ShownIsWellFormed(s[j..], Need(s[0]) != j);
      if Need(s[0]) == j {
        ReplacementIsWellFormed(if bad then REPLACEMENT else []);
        OneCharIsWellFormed(s[..j]);
        WellFormedAppend(if bad then REPLACEMENT else [], s[..j]);
        WellFormedAppend((if bad then REPLACEMENT else []) + s[..j], Shown(s[j..], false));
      }
    }
  }

  /** ... and at most twice as long. */
  lemma {:induction false} ShownIsShort(s: Bytes, bad: bool)
    ensures |Shown(s, bad)| <= 2 * |s| + if bad then 2 else 0
    decreases |s|
  {
    hide Extent;
    if s != [] {
      ShownIsShort(s[Extent(s)..], Need(s[0]) != Extent(s));
    }
  }

  // The bound is attained.
  lemma ShownTwiceAsLong()
    ensures Shown([0x80, 0x61], false) == REPLACEMENT + [0x61]
  {
    var s: Bytes := [0x80, 0x61];
    assert s[1..] == [0x61] && s[1..][1..] == [] && s[1..][..1] == [0x61];
    assert Extent(s) == 1 && Extent(s[1..]) == 1;
  }

  lemma ReplacementIsWellFormed(s: Bytes)
    requires s == [] || s == REPLACEMENT
    ensures WellFormed(s)
  {
    if s != [] {
      assert OneChar(s);
      OneCharIsWellFormed(s);
    }
  }

  lemma {:induction false} NothingShown(s: Bytes, bad: bool)
    requires End(s) == 0
    ensures Shown(s, bad) == []
    decreases |s|
  {
    hide Extent;
    if s != [] {
      NothingShown(s[Extent(s)..], true);
    }
  }

  lemma SomeEnd(s: Bytes)
    requires End(s) > 0
    ensures s != [] && (Extent(s) < |s| || Extent(s) == Need(s[0]))
  {
    if s != [] && Extent(s) == |s| {
      assert s[Extent(s)..] == [];
    }
  }

  /** Showing can stop and go on: what is kept, read again before the bytes that follow, gives what
      the whole stream would have given. */
  lemma {:induction false} ShownSplits(s: Bytes, more: Bytes, bad: bool)
    requires End(s) > 0
    ensures Shown(s + more, bad) == Shown(s, bad) + Shown(s[End(s)..] + more, false)
    ensures End(s + more) == End(s) + End(s[End(s)..] + more)
    decreases |s|
  {
    hide Extent, Shown, End, Need;
    SomeEnd(s);
    var j := Extent(s);
    var all := s + more;
    ExtentKept(s, more);
    assert all[..j] == s[..j] && all[j..] == s[j..] + more && all[0] == s[0];
    if Need(s[0]) == j {
      CharShown(s, bad, j);
      CharShown(all, bad, j);
    } else {
      NotShown(s, bad, j);
      NotShown(all, bad, j);
    }
    if End(s[j..]) > 0 {
      ShownSplits(s[j..], more, Need(s[0]) != j);
      assert s[End(s)..] == s[j..][End(s[j..])..];
    } else {
      NothingShown(s[j..], false);
    }
  }

  lemma ShownOnward(s: Bytes, more: Bytes)
    ensures Shown(s + more, false) == Shown(s, false) + Shown(s[End(s)..] + more, false)
    ensures End(s + more) == End(s) + End(s[End(s)..] + more)
  {
    if End(s) > 0 {
      ShownSplits(s, more, false);
    } else {
      NothingShown(s, false);
      assert s[0..] + more == s + more;
    }
  }

  /** Of proper text exactly the whole characters are shown, and the rest is kept. */
  lemma {:induction false} ProperShown(s: Bytes)
    requires Proper(s)
    ensures Shown(s, false) == s[..Whole(s)] && End(s) == Whole(s)
    decreases |s|
  {
    hide Extent, Started, OneChar, Shown, End, Need;
    NothingToShow();
    if s != [] {
      var n := Need(s[0]);
      if 0 < n <= |s| {
        CharExtent(s);
        CharShown(s, false, n);
        ProperShown(s[n..]);
        assert s[..Whole(s)] == s[..n] + s[n..][..Whole(s[n..])];
      } else {
        StartExtent(s);
        NotShown(s, false, |s|);
        assert s[|s|..] == [];
      }
    }
  }

  lemma CharExtent(s: Bytes)
    requires s != [] && 0 < Need(s[0]) <= |s| && OneChar(s[..Need(s[0])])
    ensures Extent(s) == Need(s[0])
  {
    ExtentIs(s, Need(s[0]));
  }

  lemma StartExtent(s: Bytes)
    requires s != [] && Started(s)
    ensures Extent(s) == |s|
  {
    assert s[..|s|] == s;
    ExtentIs(s, |s|);
  }

  // Empty, or the start of a character that lacks something.
  predicate Incomplete(s: Bytes) {
    s == [] || (Started(s) && |s| < Need(s[0]))
  }

  /** Nothing is replaced and nothing but the start of a character is kept if and only if the bytes
      are proper text. */
  lemma UnreplacedExactlyWhen(s: Bytes)
    ensures Proper(s) <==> Shown(s, false) == s[..End(s)] && Incomplete(s[End(s)..])
  {
    hide Shown, Started, WellFormed, Whole, End, Proper, Need;
    if Proper(s) {
      ProperShown(s);
      WholeIsWellFormed(s);
      ShortStart(s);
    }
    if Shown(s, false) == s[..End(s)] && Incomplete(s[End(s)..]) {
      ShownIsWellFormed(s, false);
      WellFormedThenStart(s[..End(s)], s[End(s)..]);
      assert s[..End(s)] + s[End(s)..] == s;
    }
  }

  lemma {:induction false} ShortStart(s: Bytes)
    requires Proper(s)
    ensures Incomplete(s[Whole(s)..])
    decreases |s|
  {
    if s != [] && 0 < Need(s[0]) <= |s| {
      var n := Need(s[0]);
      ShortStart(s[n..]);
      assert s[Whole(s)..] == s[n..][Whole(s[n..])..];
    } else {
      assert s[0..] == s;
    }
  }

  // ---------------------------------------------------------------------------
  // Encoded characters
  // ---------------------------------------------------------------------------

  /** A code point of at most 21 bits, which is what four bytes can carry. */
  type CodePoint = x: nat | x < 0x20_0000

  // The last six of the bits of x from 2^6k on, as a continuation byte.
  function Tail(x: nat): byte {
    (0x80 + x % 64) as byte
  }

  /** The encoding of section 3 of RFC 3629. */
  function Encoded(x: CodePoint): (s: Bytes)
    ensures 1 <= |s| <= 4
  {
    if x < 0x80 then [x as byte]
    else if x < 0x800 then [(0xc0 + x / 64) as byte, Tail(x)]
    else if x < 0x1_0000 then [(0xe0 + x / 4096) as byte, Tail(x / 64), Tail(x)]
    else [(0xf0 + x / 262144) as byte, Tail(x / 4096), Tail(x / 64), Tail(x)]
  }

  function AllEncoded(xs: seq<CodePoint>): Bytes {
    if xs == [] then [] else Encoded(xs[0]) + AllEncoded(xs[1..])
  }

  // Two byte tests of the program, bit by bit.
  lemma ByteClasses(c: byte)
    ensures Continues(c) <==> c / 64 == 2
    ensures Need(c) == if c / 128 == 0 then 1 else if c / 32 == 6 then 2 else if c / 16 == 14 then 3 else if c / 8 == 30 then 4 else 0
  {
  }

  lemma TailContinues(x: nat)
    ensures Continues(Tail(x)) && Tail(x) != 0
  {
  }

  lemma LeadByte(x: CodePoint)
    ensures Need(Encoded(x)[0]) == |Encoded(x)|
    ensures x != 0 ==> Encoded(x)[0] != 0
  {
  }

  lemma EncodedIsChar(x: CodePoint)
    ensures OneChar(Encoded(x)) && (x != 0 ==> 0 !in Encoded(x))
  {
    LeadByte(x);
    TailContinues(x);
    TailContinues(x / 64);
    TailContinues(x / 4096);
    hide Need, Tail, Continues;
  }

  // The start of one encoding.
  lemma StartOfChar(x: CodePoint, k: nat)
    requires 0 < k < |Encoded(x)|
    ensures Started(Encoded(x)[..k]) && k < Need(Encoded(x)[0]) && Encoded(x)[..k] != []
  {
    EncodedIsChar(x);
  }

  lemma {:induction false} TextIsProper(xs: seq<CodePoint>, start: Bytes)
    requires Incomplete(start)
    ensures Proper(AllEncoded(xs) + start) && Whole(AllEncoded(xs) + start) == |AllEncoded(xs)|
    decreases |xs|
  {
    hide Encoded, Started, Need;
    if xs == [] {
      assert AllEncoded(xs) + start == start;
    } else {
      var a, rest := Encoded(xs[0]), AllEncoded(xs[1..]) + start;
      TextIsProper(xs[1..], start);
      EncodedIsChar(xs[0]);
      assert AllEncoded(xs) + start == a + rest;
      CharThenProper(a, rest);
    }
  }

  lemma CharThenProper(a: Bytes, rest: Bytes)
    requires OneChar(a) && Proper(rest)
    ensures Proper(a + rest) && Whole(a + rest) == |a| + Whole(rest)
  {
    var all := a + rest;
    assert all[0] == a[0] && all[..|a|] == a && all[|a|..] == rest;
    hide Started;
  }

  /** Text is shown byte for byte and nothing of it kept; of a character that is cut off every
      byte is kept and none shown. */
  lemma TextIsShown(xs: seq<CodePoint>, x: CodePoint, k: nat)
    requires k < |Encoded(x)|
    ensures var s := AllEncoded(xs) + Encoded(x)[..k];
            Shown(s, false) == AllEncoded(xs) && s[End(s)..] == Encoded(x)[..k]
  {
    hide Shown, End, Encoded, AllEncoded, Need, Started, Whole, Proper;
    var start := Encoded(x)[..k];
    if k > 0 {
      StartOfChar(x, k);
    }
    assert k > 0 ==> start[0] == Encoded(x)[0];
    TextIsProper(xs, start);
    var s := AllEncoded(xs) + start;
    ProperShown(s);
    assert s[..|AllEncoded(xs)|] == AllEncoded(xs) && s[|AllEncoded(xs)|..] == start;
  }

  lemma {:induction false} NoNulInText(xs: seq<CodePoint>)
    requires forall i :: 0 <= i < |xs| ==> xs[i] != 0
    ensures 0 !in AllEncoded(xs)
  {
    hide Encoded;
    if xs != [] {
      EncodedIsChar(xs[0]);
      NoNulInText(xs[1..]);
    }
  }

  // What stands for bytes that make no character is U+FFFD.
  lemma ReplacementCharacter()
    ensures REPLACEMENT == Encoded(0xfffd)
  {
  }

  // ---------------------------------------------------------------------------
  // The decoder
  // ---------------------------------------------------------------------------

  // The bytes before the first NUL, which ends the buffer.
  function UpToNul(s: Bytes): (t: Bytes)
    ensures |t| <= |s| && t == s[..|t|] && 0 !in t
    ensures |t| < |s| ==> s[|t|] == 0
  {
    if s == [] || s[0] == 0 then [] else [s[0]] + UpToNul(s[1..])
  }

  // The next byte as the decoder classifies it.
  predicate Accepts(missing: nat, c: byte) {
    if missing > 0 then Continues(c) else Need(c) > 0
  }

  function StillMissing(missing: nat, c: byte): nat
    requires Accepts(missing, c)
  {
    if missing > 0 then missing - 1 else Need(c) - 1
  }

  /** The decoder's variables against what is shown of t: behind the checkpoint stand a replacement
      character if bytes were dropped, and the character being read, which starts at `from`. */
  ghost predicate Reading(t: Bytes, src: nat, dst: Bytes, missing: nat, checkpointSrc: nat, checkpoint: nat, from: nat, bad: bool) {
    && checkpointSrc <= from <= src <= |t| && checkpoint <= |dst|
    && dst[checkpoint..] == (if bad then REPLACEMENT else []) + t[from..src]
    && Shown(t, false) == dst[..checkpoint] + Shown(t[from..], bad)
    && End(t) == (if End(t[from..]) > 0 then from + End(t[from..]) else checkpointSrc)
    && if missing == 0 then from == src
       else from < src && Started(t[from..src]) && Need(t[from]) == src - from + missing
  }

  lemma ReadingStarts(t: Bytes)
    ensures Reading(t, 0, [], 0, 0, 0, 0, false)
  {
    assert t[0..] == t;
  }

  lemma Accepted(t: Bytes, src: nat, dst: Bytes, missing: nat, checkpointSrc: nat, checkpoint: nat, from: nat, bad: bool)
    requires Reading(t, src, dst, missing, checkpointSrc, checkpoint, from, bad) && src < |t| && Accepts(missing, t[src])
    ensures var missing' := StillMissing(missing, t[src]);
            if missing' == 0 then Reading(t, src + 1, dst + [t[src]], 0, src + 1, |dst| + 1, src + 1, false)
            else Reading(t, src + 1, dst + [t[src]], missing', checkpointSrc, checkpoint, from, bad)
  {
    hide Shown, End, Started, Need;
    var dst' := dst + [t[src]];
    assert t[from..src] + [t[src]] == t[from..src + 1];
    assert dst'[checkpoint..] == dst[checkpoint..] + [t[src]] && dst'[..checkpoint] == dst[..checkpoint];
    GrownStart(t, src, missing, from);
    if StillMissing(missing, t[src]) == 0 {
      CompletedChar(t, src, from, bad);
      assert dst' == dst[..checkpoint] + dst'[checkpoint..];
      assert dst'[..|dst'|] == dst' && dst'[|dst'|..] == [] && t[src + 1..src + 1] == [];
    }
  }

  lemma CompletedChar(t: Bytes, src: nat, from: nat, bad: bool)
    requires from <= src < |t| && Started(t[from..src + 1]) && Need(t[from]) == src + 1 - from
    ensures Shown(t[from..], bad) == (if bad then REPLACEMENT else []) + t[from..src + 1] + Shown(t[src + 1..], false)
    ensures End(t[from..]) == src + 1 - from + End(t[src + 1..])
  {
    hide Shown, End, Started;
    var rest, n := t[from..], src + 1 - from;
    assert rest[..n] == t[from..src + 1] && rest[n..] == t[src + 1..];
    ExtentIs(rest, n);
    CharShown(rest, bad, n);
  }

  lemma CharShown(s: Bytes, bad: bool, n: nat)
    requires 1 <= n <= |s| && Extent(s) == Need(s[0]) == n
    ensures Shown(s, bad) == (if bad then REPLACEMENT else []) + s[..n] + Shown(s[n..], false)
    ensures End(s) == n + End(s[n..])
  {
  }

  lemma GrownStart(t: Bytes, src: nat, missing: nat, from: nat)
    requires from <= src < |t| && Accepts(missing, t[src])
    requires if missing == 0 then from == src
             else from < src && Started(t[from..src]) && Need(t[from]) == src - from + missing
    ensures Started(t[from..src + 1]) && Need(t[from]) == src + 1 - from + StillMissing(missing, t[src])
    ensures t[from..][..src + 1 - from] == t[from..src + 1]
  {
    var u, v := t[from..src], t[from..src + 1];
    forall i | 1 <= i < |v|
      ensures Continues(v[i])
    {
      assert i < |u| ==> v[i] == u[i];
    }
  }

  // A character that breaks off, or a byte that starts none, is dropped.
  lemma Recovered(t: Bytes, src: nat, dst: Bytes, missing: nat, checkpointSrc: nat, checkpoint: nat, from: nat, bad: bool)
    requires Reading(t, src, dst, missing, checkpointSrc, checkpoint, from, bad) && src < |t| && !Accepts(missing, t[src])
    ensures var src' := if missing > 0 then src else src + 1;
            Reading(t, src', dst[..checkpoint] + REPLACEMENT, 0, checkpointSrc, checkpoint, src', true)
  {
    hide Shown, End, Started;
    var src' := if missing > 0 then src else src + 1;
    var dst' := dst[..checkpoint] + REPLACEMENT;
    DroppedBytes(t, src, missing, from, bad);
    assert dst'[..checkpoint] == dst[..checkpoint] && dst'[checkpoint..] == REPLACEMENT && t[src'..src'] == [];
  }

  lemma DroppedBytes(t: Bytes, src: nat, missing: nat, from: nat, bad: bool)
    requires from <= src < |t| && !Accepts(missing, t[src])
    requires if missing == 0 then from == src
             else from < src && Started(t[from..src]) && Need(t[from]) == src - from + missing
    ensures var src' := if missing > 0 then src else src + 1;
            && Shown(t[from..], bad) == Shown(t[src'..], true)
            && End(t[from..]) == if End(t[src'..]) > 0 then src' - from + End(t[src'..]) else 0
  {
    hide Shown, End, Started;
    var rest, src' := t[from..], if missing > 0 then src else src + 1;
    var j := src' - from;
    if missing > 0 {
      assert rest[..j] == t[from..src] && rest[j] == t[src];
      ExtentIs(rest, j);
    } else {
      ExtentOf(rest);
    }
    assert rest[j..] == t[src'..];
    NotShown(rest, bad, j);
  }

  lemma NotShown(s: Bytes, bad: bool, j: nat)
    requires s != [] && Extent(s) == j != Need(s[0])
    ensures Shown(s, bad) == Shown(s[j..], true)
    ensures End(s) == if End(s[j..]) > 0 then j + End(s[j..]) else 0
  {
  }

  lemma ReadingEnds(t: Bytes, dst: Bytes, missing: nat, checkpointSrc: nat, checkpoint: nat, from: nat, bad: bool)
    requires Reading(t, |t|, dst, missing, checkpointSrc, checkpoint, from, bad)
    ensures dst[..checkpoint] == Shown(t, false) && checkpointSrc == End(t)
  {
    hide Shown, End, Started;
    var rest := t[from..];
    if missing > 0 {
      assert rest == t[from..|t|];
      StartExtent(rest);
      NotShown(rest, bad, |rest|);
      assert rest[|rest|..] == [];
    }
    NothingToShow();
  }

  lemma NothingToShow()
    ensures forall bad :: Shown([], bad) == []
    ensures End([]) == 0
  {
  }

  /** One pass over the buffered bytes, up to the first NUL: gives the text to print and the bytes
      to keep. */
  method Detokenise(s: Bytes) returns (text: Bytes, kept: Bytes)
    ensures text == Shown(UpToNul(s), false) && kept == UpToNul(s)[End(UpToNul(s))..]
  {
    hide *;
    var src: nat, dst: Bytes, missing: nat := 0, [], 0;
    var checkpointSrc: nat, checkpoint: nat := 0, 0;
    ghost var t := UpToNul(s);
    ghost var from, bad := 0, false;
    ReadingStarts(t);
    while src < |s| && s[src] != 0
      invariant src <= |t| && checkpointSrc <= |t| && checkpoint <= |dst|
      invariant Reading(t, src, dst, missing, checkpointSrc, checkpoint, from, bad)
      decreases |t| - src, missing
    {
      assert src < |t| && t[src] == s[src];
      var c := s[src];
      ReadingBounds(t, src, dst, missing, checkpointSrc, checkpoint, from, bad);
      if Accepts(missing, c) {
        Accepted(t, src, dst, missing, checkpointSrc, checkpoint, from, bad);
        dst := dst + [c];
        src := src + 1;
        missing := StillMissing(missing, c);
        if missing == 0 {
          checkpoint := |dst|;
          checkpointSrc := src;
          from, bad := src, false;
        }
      } else {
        Recovered(t, src, dst, missing, checkpointSrc, checkpoint, from, bad);
        if missing > 0 {
          missing := 0;
        } else {
          src := src + 1;
        }
        dst := dst[..checkpoint] + REPLACEMENT;
        from, bad := src, true;
      }
    }
    assert src == |t|;
    ReadingBounds(t, src, dst, missing, checkpointSrc, checkpoint, from, bad);
    ReadingEnds(t, dst, missing, checkpointSrc, checkpoint, from, bad);
    text := dst[..checkpoint];
    kept := if src > checkpointSrc then s[checkpointSrc..src] else [];
    assert t == s[..src];
  }

  lemma ReadingBounds(t: Bytes, src: nat, dst: Bytes, missing: nat, checkpointSrc: nat, checkpoint: nat, from: nat, bad: bool)
    requires Reading(t, src, dst, missing, checkpointSrc, checkpoint, from, bad)
    ensures checkpointSrc <= src <= |t| && checkpoint <= |dst|
  {
  }

  // ---------------------------------------------------------------------------
  // Streams of tokens
  // ---------------------------------------------------------------------------

  datatype Vocab = Vocab(pieces: seq<Bytes>, maxTokenLength: nat, bosId: int, eosIds: seq<int>)

  ghost predicate ValidVocab(V: Vocab) {
    V.maxTokenLength >= 1 && forall id :: 0 <= id < |V.pieces| ==> |V.pieces[id]| <= V.maxTokenLength
  }

  // What a call gives back; a failed size assertion is made visible.
  datatype Outcome = Nothing | Text(bytes: Bytes) | AssertionFailed

  // Does the token contribute its bytes?
  predicate Speaks(V: Vocab, token: int) {
    0 <= token < |V.pieces| && token != V.bosId && token !in V.eosIds
  }

  /** The size assertion holds whenever at most three bytes are kept. */
  lemma PieceFits(V: Vocab, kept: Bytes, token: int)
    requires ValidVocab(V) && Speaks(V, token) && |kept| <= 3
    ensures |kept| + |V.pieces[token]| + 1 < ScratchSize(V.maxTokenLength)
  {
  }

  class Decoder {
    const vocab: Vocab
    // Bytes behind the last whole character.
    var strBuffer: Bytes
    // All bytes of the tokens so far, and all text given back, since the last reset.
    ghost var fed: Bytes
    ghost var shown: Bytes

    constructor (V: Vocab)
      ensures vocab == V && Exact()
    {
      vocab := V;
      strBuffer, fed, shown := [], [], [];
    }

    /** However the bytes were split into tokens, what was shown is what is shown of the whole
        stream, and what is kept is what lies behind its last whole character. */
    ghost predicate Exact()
      reads this
    {
      0 !in fed ==> shown == Shown(fed, false) && strBuffer == fed[End(fed)..]
    }

    method ResetDecoder()
      modifies this
      ensures Exact() && fed == []
    {
      strBuffer, fed, shown := [], [], [];
    }

    method Decode(token: int) returns (r: Outcome)
      requires ValidVocab(vocab) && Exact()
      requires token == vocab.bosId || token in vocab.eosIds || 0 <= token < |vocab.pieces|
      modifies this
      ensures !Speaks(vocab, token) || r == AssertionFailed ==> unchanged(this) && Exact()
      ensures token == vocab.bosId ==> r == Nothing
      ensures token != vocab.bosId && token in vocab.eosIds ==> r == if strBuffer == [] then Nothing else Text(strBuffer)
      ensures Speaks(vocab, token) && r != AssertionFailed ==>
                && fed == old(fed) + vocab.pieces[token]
                && shown == old(shown) + (if r.Text? then r.bytes else [])
                && (r.Text? ==> r.bytes != [] && WellFormed(r.bytes))
                && Exact()
      ensures r == AssertionFailed <==>
                Speaks(vocab, token) && |old(strBuffer)| + |vocab.pieces[token]| + 1 >= ScratchSize(vocab.maxTokenLength)
      ensures 0 !in old(fed) && Proper(old(fed)) ==> r != AssertionFailed
    {
      hide Proper, Whole, WellFormed, Shown, End;
      if token == vocab.bosId {
        return Nothing;
      }
      if token in vocab.eosIds {
        return if strBuffer != [] then Text(strBuffer) else Nothing;
      }
      var piece := vocab.pieces[token];
      if 0 !in fed && Proper(fed) {
        ProperShown(fed);
        WholeIsWellFormed(fed);
        PieceFits(vocab, strBuffer, token);
      }
      if !(|strBuffer| + |piece| + 1 < ScratchSize(vocab.maxTokenLength)) {
        return AssertionFailed;
      }
      ghost var all := fed + piece;
      var buffer := strBuffer + piece;
      var text, kept := Detokenise(buffer);
      ShownIsWellFormed(UpToNul(buffer), false);
      if 0 !in all {
        NoNul(fed, piece, strBuffer);
        ShownOnward(fed, piece);
        KeptOnward(fed, piece);
      }
      strBuffer := kept;
      fed, shown := all, shown + text;
      r := if text != [] then Text(text) else Nothing;
    }

    /** Any stream without NULs, whatever way it is split into tokens: either everything is
        shown as if it had come in one piece, or some token no longer fits behind what is kept.
        Proper text always fits, and of it the whole characters are shown. */
    method DecodeAll(tokens: seq<int>) returns (all: Bytes, ok: bool)
      requires ValidVocab(vocab) && Exact() && fed == [] && shown == [] && strBuffer == []
      requires forall i :: 0 <= i < |tokens| ==> Speaks(vocab, tokens[i])
      requires 0 !in Joined(vocab, tokens)
      modifies this
      ensures ok <==> forall i :: 0 <= i < |tokens| ==> Fits(vocab, tokens, i)
      ensures WellFormed(all)
      ensures ok ==> all == Shown(Joined(vocab, tokens), false)
                     && strBuffer == Joined(vocab, tokens)[End(Joined(vocab, tokens))..]
      ensures Proper(Joined(vocab, tokens)) ==> ok && all + strBuffer == Joined(vocab, tokens) && |strBuffer| <= 3
      ensures forall xs: seq<CodePoint>, x: CodePoint, k: nat ::
                k < |Encoded(x)| && Joined(vocab, tokens) == AllEncoded(xs) + Encoded(x)[..k] ==>
                ok && all == AllEncoded(xs) && strBuffer == Encoded(x)[..k]
    {
      hide Proper, Whole, WellFormed, Joined, Shown, End, AllEncoded, Encoded;
      all, ok := [], true;
      EncodedText(Joined(vocab, tokens));
      JoinedNothing(vocab);
      NothingToShow();
      NoNulBefore(vocab, tokens);
      var i := 0;
      while i < |tokens|
        invariant 0 <= i <= |tokens| && Exact() && ok
        invariant fed == Joined(vocab, tokens[..i]) && shown == all
        invariant forall q :: 0 <= q < i ==> Fits(vocab, tokens, q)
      {
        ghost var before := fed;
        var r := Decode(tokens[i]);
        if r == AssertionFailed {
          if Proper(Joined(vocab, tokens)) {
            JoinedPrefix(vocab, tokens, i);
          }
          assert !Fits(vocab, tokens, i);
          ShownIsWellFormed(fed, false);
          return all, false;
        }
        JoinedNext(vocab, tokens, i);
        all := all + if r.Text? then r.bytes else [];
        i := i + 1;
      }
      assert tokens[..i] == tokens;
      ShownIsWellFormed(fed, false);
      if Proper(fed) {
        ProperShown(fed);
        WholeIsWellFormed(fed);
        assert fed[..Whole(fed)] + fed[Whole(fed)..] == fed;
      }
    }
  }

  lemma EncodedText(s: Bytes)
    ensures forall xs: seq<CodePoint>, x: CodePoint, k: nat ::
              k < |Encoded(x)| && s == AllEncoded(xs) + Encoded(x)[..k] ==>
              Proper(s) && Shown(s, false) == AllEncoded(xs) && s[End(s)..] == Encoded(x)[..k]
  {
    hide *;
    forall xs: seq<CodePoint>, x: CodePoint, k: nat | k < |Encoded(x)| && s == AllEncoded(xs) + Encoded(x)[..k]
      ensures Proper(s) && Shown(s, false) == AllEncoded(xs) && s[End(s)..] == Encoded(x)[..k]
    {
      TextIsShown(xs, x, k);
      CutTextIsProper(xs, x, k);
    }
  }

  lemma CutTextIsProper(xs: seq<CodePoint>, x: CodePoint, k: nat)
    requires k < |Encoded(x)|
    ensures Proper(AllEncoded(xs) + Encoded(x)[..k])
  {
    hide Encoded, AllEncoded, Need, Started, Whole, Proper;
    if k > 0 {
      StartOfChar(x, k);
    }
    assert k > 0 ==> Encoded(x)[..k][0] == Encoded(x)[0];
    TextIsProper(xs, Encoded(x)[..k]);
  }

  // Token i fits into the buffer behind what is kept of the tokens before it.
  ghost predicate Fits(V: Vocab, tokens: seq<int>, i: nat)
    requires i < |tokens| && forall j :: 0 <= j < |tokens| ==> Speaks(V, tokens[j])
  {
    var fed := Joined(V, tokens[..i]);
    Speaks(V, tokens[i]) && |fed| - End(fed) + |V.pieces[tokens[i]]| + 1 < ScratchSize(V.maxTokenLength)
  }

  /** Bytes that start no character are all kept, so a long enough run of them does not fit. */
  lemma {:induction false} StrayBytesAreKept(s: Bytes)
    requires forall i :: 0 <= i < |s| ==> Continues(s[i])
    ensures End(s) == 0
    decreases |s|
  {
    hide Extent;
    if s != [] {
      ExtentOf(s);
      assert forall i :: 0 <= i < |s| - 1 ==> s[1..][i] == s[i + 1];
      StrayBytesAreKept(s[1..]);
    }
  }

  lemma NoNul(fed: Bytes, piece: Bytes, kept: Bytes)
    requires 0 !in fed + piece && kept == fed[End(fed)..]
    ensures 0 !in fed && UpToNul(kept + piece) == kept + piece
  {
    hide End;
    assert forall b :: b in kept + piece ==> b in fed + piece;
    assert forall b :: b in fed ==> b in fed + piece;
    NulFree(kept + piece);
  }

  lemma {:induction false} NulFree(s: Bytes)
    requires 0 !in s
    ensures UpToNul(s) == s
  {
    if s != [] {
      assert forall b :: b in s[1..] ==> b in s;
      NulFree(s[1..]);
    }
  }

  lemma KeptOnward(fed: Bytes, piece: Bytes)
    ensures (fed + piece)[End(fed + piece)..] == (fed[End(fed)..] + piece)[End(fed[End(fed)..] + piece)..]
  {
    hide End, Shown;
    ShownOnward(fed, piece);
    DropTwice(fed, piece, End(fed), End(fed[End(fed)..] + piece));
  }

  lemma DropTwice(a: Bytes, b: Bytes, e: nat, f: nat)
    requires e <= |a| && e + f <= |a| + |b|
    ensures (a + b)[e + f..] == (a[e..] + b)[f..]
  {
    assert a + b == a[..e] + (a[e..] + b);
  }

  // The bytes of the tokens in order.
  ghost function Joined(V: Vocab, tokens: seq<int>): Bytes
    requires forall i :: 0 <= i < |tokens| ==> Speaks(V, tokens[i])
  {
    if tokens == [] then [] else
      var n := |tokens| - 1;
      assert Speaks(V, tokens[n]);
      Joined(V, tokens[..n]) + V.pieces[tokens[n]]
  }

  lemma JoinedNothing(V: Vocab)
    ensures Joined(V, []) == []
  {
  }

  lemma JoinedNext(V: Vocab, tokens: seq<int>, i: nat)
    requires i < |tokens| && forall j :: 0 <= j < |tokens| ==> Speaks(V, tokens[j])
    ensures Joined(V, tokens[..i + 1]) == Joined(V, tokens[..i]) + V.pieces[tokens[i]]
  {
    assert tokens[..i + 1][..i] == tokens[..i];
  }

  lemma {:induction false} NoNulBefore(V: Vocab, tokens: seq<int>)
    requires (forall j :: 0 <= j < |tokens| ==> Speaks(V, tokens[j])) && 0 !in Joined(V, tokens)
    ensures forall i :: 0 <= i <= |tokens| ==> 0 !in Joined(V, tokens[..i])
    decreases |tokens|
  {
    assert tokens[..|tokens|] == tokens;
    if tokens != [] {
      var n := |tokens| - 1;
      var a, b := Joined(V, tokens[..n]), V.pieces[tokens[n]];
      assert forall x :: x in a ==> x in a + b;
      NoNulBefore(V, tokens[..n]);
      assert forall i :: 0 <= i <= n ==> tokens[..n][..i] == tokens[..i];
    }
  }

  // Every prefix of proper text is proper.
  lemma {:induction false} JoinedPrefix(V: Vocab, tokens: seq<int>, i: nat)
    requires i <= |tokens| && forall j :: 0 <= j < |tokens| ==> Speaks(V, tokens[j])
    requires Proper(Joined(V, tokens))
    ensures Proper(Joined(V, tokens[..i]))
    decreases |tokens|
  {
    if i == |tokens| {
      assert tokens[..i] == tokens;
    } else {
      var n := |tokens| - 1;
      var a, b := Joined(V, tokens[..n]), V.pieces[tokens[n]];
      CutFront(a, b);
      JoinedPrefix(V, tokens[..n], i);
      assert tokens[..n][..i] == tokens[..i];
    }
  }
}
