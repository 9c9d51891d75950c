/** The pairwise KV exchange of a sequence-parallel group over rendezvous channels: ranks
    visit their peers in ascending order, and of each pair the lower rank sends first. */
module KvExchange {
  import opened Arithmetic
  import opened Common
  import opened Partition

  type Row = seq<real>

  // The key and the value rows of one rank, by position.
  datatype Cache = Cache(k: seq<Row>, v: seq<Row>)

  /** Rank r contributes positions [lo[r], hi[r]). */
  datatype Sync = Sync(n: nat, len: nat, lo: seq<nat>, hi: seq<nat>)

  predicate InRange(g: Sync, r: nat, p: nat) {
    r < |g.lo| && r < |g.hi| && g.lo[r] <= p < g.hi[r]
  }

  predicate Valid(g: Sync) {
    |g.lo| == |g.hi| == g.n
  }

  ghost predicate Disjoint(g: Sync) {
    forall q, r, p :: 0 <= q < g.n && 0 <= r < g.n && InRange(g, q, p) && InRange(g, r, p) ==> q == r
  }

  // ---------------------------------------------------------------------------
  // Messages of a pair
  // ---------------------------------------------------------------------------

  datatype Message = Message(from: nat, isKey: bool)

  // Nothing is sent for an empty range.
  function Sends(g: Sync, r: nat): seq<Message> {
    if r < |g.lo| && r < |g.hi| && g.lo[r] < g.hi[r] then [Message(r, true), Message(r, false)] else []
  }

  // What the pair exchanges, in order.
  function Script(g: Sync, me: nat, peer: nat): seq<Message> {
    if me < peer then Sends(g, me) + Sends(g, peer) else Sends(g, peer) + Sends(g, me)
  }

  lemma ScriptSymmetric(g: Sync, a: nat, b: nat)
    ensures Script(g, a, b) == Script(g, b, a)
  {
  }

  // ---------------------------------------------------------------------------
  // Transitions
  // ---------------------------------------------------------------------------

  // The loop variable over peers and the position in the script with that peer.
  datatype Rank = Rank(peer: nat, index: nat, cache: Cache)

  type State = seq<Rank>

  predicate Shape(g: Sync, s: State) {
    |s| == g.n && forall i :: 0 <= i < g.n ==> |s[i].cache.k| == |s[i].cache.v| == g.len
  }

  predicate CanAdvance(g: Sync, s: State, i: nat) {
    i < |s| && s[i].peer < g.n && (s[i].peer == i || s[i].index == |Script(g, i, s[i].peer)|)
  }

  function Advance(s: State, i: nat): State
    requires i < |s|
  {
    s[i := s[i].(peer := s[i].peer + 1, index := 0)]
  }

  // Both ends are at the same pair; `a` is the lower rank.
  predicate CanMeet(g: Sync, s: State, a: nat, b: nat) {
    && a < b < |s| == g.n && s[a].peer == b && s[b].peer == a
    && s[a].index == s[b].index < |Script(g, a, b)|
  }

  function CopyRange(g: Sync, r: nat, from: seq<Row>, to: seq<Row>): (out: seq<Row>)
    requires |from| == |to|
    ensures |out| == |to|
    ensures forall p :: 0 <= p < |to| ==> out[p] == if InRange(g, r, p) then from[p] else to[p]
  {
    seq(|to|, p requires 0 <= p < |to| => if InRange(g, r, p) then from[p] else to[p])
  }

  function Receive(g: Sync, m: Message, from: Cache, to: Cache): Cache
    requires |from.k| == |to.k| && |from.v| == |to.v|
  {
    if m.isKey then to.(k := CopyRange(g, m.from, from.k, to.k)) else to.(v := CopyRange(g, m.from, from.v, to.v))
  }

  /** One read meets one write. */
  function Meet(g: Sync, s: State, a: nat, b: nat): State
    requires Shape(g, s) && CanMeet(g, s, a, b)
  {
    var m := Script(g, a, b)[s[a].index];
    var x := if m.from == a then s[a].cache else Receive(g, m, s[b].cache, s[a].cache);
    var y := if m.from == a then Receive(g, m, s[a].cache, s[b].cache) else s[b].cache;
    s[a := s[a].(index := s[a].index + 1, cache := x)][b := s[b].(index := s[b].index + 1, cache := y)]
  }

  ghost predicate Next(g: Sync, s: State, s': State)
    requires Shape(g, s)
  {
    || (exists i :: CanAdvance(g, s, i) && s' == Advance(s, i))
    || (exists a, b :: CanMeet(g, s, a, b) && s' == Meet(g, s, a, b))
  }

  predicate Init(g: Sync, start: seq<Cache>, s: State) {
    && Shape(g, s) && |start| == g.n
    && forall i :: 0 <= i < g.n ==> s[i] == Rank(0, 0, start[i])
  }

  predicate Done(g: Sync, s: State) {
    forall i :: 0 <= i < |s| ==> s[i].peer == g.n
  }

  // ---------------------------------------------------------------------------
  // Invariant
  // ---------------------------------------------------------------------------

  /** Messages of the pair (i, p) that rank i has behind it. */
  function Progress(g: Sync, s: State, i: nat, p: nat): nat
    requires i < |s|
  {
    if s[i].peer > p then |Script(g, i, p)| else if s[i].peer == p then s[i].index else 0
  }

  // Rank i has received the keys (or values) of rank r.
  predicate Has(g: Sync, s: State, i: nat, r: nat, isKey: bool)
    requires i < |s|
  {
    exists q :: 0 <= q < Progress(g, s, i, r) && q < |Script(g, i, r)| && Script(g, i, r)[q] == Message(r, isKey)
  }

  // Every row is the rank's own from the start, or that of the rank it was received from.
  predicate RowsOk(g: Sync, start: seq<Cache>, s: State, i: nat)
    requires Shape(g, s) && |start| == g.n && i < g.n
    requires forall r :: 0 <= r < g.n ==> |start[r].k| == |start[r].v| == g.len
  {
    && (forall p, r :: 0 <= p < g.len && 0 <= r < g.n && r != i && InRange(g, r, p) && Has(g, s, i, r, true)
          ==> s[i].cache.k[p] == start[r].k[p])
    && (forall p, r :: 0 <= p < g.len && 0 <= r < g.n && r != i && InRange(g, r, p) && Has(g, s, i, r, false)
          ==> s[i].cache.v[p] == start[r].v[p])
    && (forall p :: 0 <= p < g.len && Untouched(g, i, p) ==> s[i].cache.k[p] == start[i].k[p] && s[i].cache.v[p] == start[i].v[p])
  }

  // All ranks start with the same rows at position p.
  predicate Shared(start: seq<Cache>, p: nat) {
    forall q, r :: 0 <= q < |start| && 0 <= r < |start| && p < |start[q].k| && p < |start[q].v| && p < |start[r].k| && p < |start[r].v|
      ==> start[q].k[p] == start[r].k[p] && start[q].v[p] == start[r].v[p]
  }

  // Copying rows to where they are the same changes nothing.
  predicate SharedOk(g: Sync, start: seq<Cache>, s: State, i: nat)
    requires Shape(g, s) && |start| == g.n && i < g.n
    requires forall r :: 0 <= r < g.n ==> |start[r].k| == |start[r].v| == g.len
  {
    forall p :: 0 <= p < g.len && Shared(start, p) ==>
      s[i].cache.k[p] == start[i].k[p] && s[i].cache.v[p] == start[i].v[p]
  }

  // No other rank contributes position p.
  predicate Untouched(g: Sync, i: nat, p: nat) {
    forall r :: 0 <= r < g.n && r != i ==> !InRange(g, r, p)
  }

  ghost predicate Inv(g: Sync, start: seq<Cache>, s: State) {
    && Valid(g) && Shape(g, s) && |start| == g.n
    && (forall r :: 0 <= r < g.n ==> |start[r].k| == |start[r].v| == g.len)
    && (forall i :: 0 <= i < g.n ==> s[i].peer <= g.n)
    && (forall i :: 0 <= i < g.n && s[i].peer < g.n && s[i].peer != i ==> s[i].index <= |Script(g, i, s[i].peer)|)
    && (forall i :: 0 <= i < g.n && (s[i].peer == g.n || s[i].peer == i) ==> s[i].index == 0)
    && (forall a, b :: 0 <= a < g.n && 0 <= b < g.n && a != b ==> Progress(g, s, a, b) == Progress(g, s, b, a))
    && (forall i :: 0 <= i < g.n ==> SharedOk(g, start, s, i))
    && (Disjoint(g) ==> forall i :: 0 <= i < g.n ==> RowsOk(g, start, s, i))
  }

  lemma InitInv(g: Sync, start: seq<Cache>, s: State)
    requires Valid(g) && Init(g, start, s)
    ensures Inv(g, start, s)
  {
    hide Script, Sends, Shared, Disjoint;
    forall i | 0 <= i < g.n
      ensures RowsOk(g, start, s, i) && SharedOk(g, start, s, i)
    {
      assert forall r, isKey :: 0 <= r < g.n ==> !Has(g, s, i, r, isKey);
    }
  }

  lemma AdvanceKeepsProgress(g: Sync, start: seq<Cache>, s: State, i: nat, k: nat, p: nat)
    requires Inv(g, start, s) && CanAdvance(g, s, i) && k < g.n && p < g.n && k != p
    ensures Progress(g, Advance(s, i), k, p) == Progress(g, s, k, p)
  {
    hide Script, RowsOk, SharedOk, Disjoint;
  }

  lemma AdvanceKeepsInv(g: Sync, start: seq<Cache>, s: State, i: nat)
    requires Inv(g, start, s) && CanAdvance(g, s, i)
    ensures Inv(g, start, Advance(s, i))
  {
    hide Script, Shared, Disjoint;
    var s' := Advance(s, i);
    forall a, b | 0 <= a < g.n && 0 <= b < g.n && a != b
      ensures Progress(g, s', a, b) == Progress(g, s, a, b)
    {
      AdvanceKeepsProgress(g, start, s, i, a, b);
    }
    forall k | 0 <= k < g.n
      ensures SharedOk(g, start, s', k) && (Disjoint(g) ==> RowsOk(g, start, s', k))
    {
      assert SharedOk(g, start, s, k) && (Disjoint(g) ==> RowsOk(g, start, s, k));
      assert forall r, isKey :: 0 <= r < g.n && r != k ==> Has(g, s', k, r, isKey) == Has(g, s, k, r, isKey);
    }
  }

  // The rows a rank contributes stay what they were.
  lemma OwnRows(g: Sync, start: seq<Cache>, s: State, r: nat, p: nat)
    requires Inv(g, start, s) && Disjoint(g) && r < g.n && p < g.len && InRange(g, r, p)
    ensures s[r].cache.k[p] == start[r].k[p] && s[r].cache.v[p] == start[r].v[p]
  {
    hide Script, Shared;
    assert RowsOk(g, start, s, r) && Untouched(g, r, p);
  }

  lemma MeetKeepsProgress(g: Sync, start: seq<Cache>, s: State, a: nat, b: nat, k: nat, p: nat)
    requires Inv(g, start, s) && CanMeet(g, s, a, b) && k < g.n && p < g.n && k != p
    ensures Progress(g, Meet(g, s, a, b), k, p) ==
            Progress(g, s, k, p) + if (k == a && p == b) || (k == b && p == a) then 1 else 0
  {
    hide Script, RowsOk, SharedOk, Disjoint, Receive;
  }

  lemma ScriptSenders(g: Sync, a: nat, b: nat, q: nat)
    requires q < |Script(g, a, b)|
    ensures Script(g, a, b)[q].from == a || Script(g, a, b)[q].from == b
    ensures Script(g, b, a) == Script(g, a, b)
  {
  }

  // Progress by one message adds at most that message.
  lemma HasAfterMeet(g: Sync, start: seq<Cache>, s: State, a: nat, b: nat, k: nat, r: nat, isKey: bool)
    requires Inv(g, start, s) && CanMeet(g, s, a, b) && k < g.n && r < g.n && k != r
    ensures Has(g, Meet(g, s, a, b), k, r, isKey) ==>
              Has(g, s, k, r, isKey)
              || (((k == a && r == b) || (k == b && r == a)) && Script(g, a, b)[s[a].index] == Message(r, isKey))
  {
    MeetKeepsProgress(g, start, s, a, b, k, r);
    ScriptSymmetric(g, a, b);
    hide Script, RowsOk, SharedOk, Disjoint, Receive, Meet;
  }

  lemma SenderKeepsCache(g: Sync, s: State, a: nat, b: nat, k: nat)
    requires Shape(g, s) && CanMeet(g, s, a, b) && k < g.n
    requires (k != a && k != b) || k == Script(g, a, b)[s[a].index].from
    ensures Shape(g, Meet(g, s, a, b)) && Meet(g, s, a, b)[k].cache == s[k].cache
  {
    ScriptSenders(g, a, b, s[a].index);
    hide Script;
  }

  // The end that only sends keeps its rows and gains no claims.
  lemma SenderKeepsRows(g: Sync, start: seq<Cache>, s: State, a: nat, b: nat, k: nat)
    requires Inv(g, start, s) && Disjoint(g) && CanMeet(g, s, a, b) && k < g.n
    requires (k != a && k != b) || k == Script(g, a, b)[s[a].index].from
    ensures Shape(g, Meet(g, s, a, b)) && RowsOk(g, start, Meet(g, s, a, b), k)
  {
    hide Script, Shared, Receive, Has, Meet, Progress, Untouched, InRange, Disjoint;
    var s' := Meet(g, s, a, b);
    SenderKeepsCache(g, s, a, b, k);
    assert RowsOk(g, start, s, k);
    forall r, isKey | 0 <= r < g.n && r != k
      ensures Has(g, s', k, r, isKey) ==> Has(g, s, k, r, isKey)
    {
      SenderGainsNothing(g, start, s, a, b, k, r, isKey);
    }
  }

  lemma SenderGainsNothing(g: Sync, start: seq<Cache>, s: State, a: nat, b: nat, k: nat, r: nat, isKey: bool)
    requires Inv(g, start, s) && CanMeet(g, s, a, b) && k < g.n && r < g.n && r != k
    requires (k != a && k != b) || k == Script(g, a, b)[s[a].index].from
    ensures |Meet(g, s, a, b)| == g.n && (Has(g, Meet(g, s, a, b), k, r, isKey) ==> Has(g, s, k, r, isKey))
  {
    hide Script, RowsOk, SharedOk, Receive, Has, Progress, Disjoint;
    HasAfterMeet(g, start, s, a, b, k, r, isKey);
  }

  lemma ReceiverGetsRows(g: Sync, start: seq<Cache>, s: State, a: nat, b: nat, k: nat)
    requires Inv(g, start, s) && Disjoint(g) && CanMeet(g, s, a, b) && (k == a || k == b)
    requires k != Script(g, a, b)[s[a].index].from
    ensures Shape(g, Meet(g, s, a, b)) && RowsOk(g, start, Meet(g, s, a, b), k)
  {
    hide Script, Shared;
    var s' := Meet(g, s, a, b);
    var m := Script(g, a, b)[s[a].index];
    var from := if k == a then b else a;
    ScriptSenders(g, a, b, s[a].index);
    assert s'[k].cache == Receive(g, m, s[from].cache, s[k].cache) && m.from == from;
    hide Meet;
    assert RowsOk(g, start, s, k);
    forall p | 0 <= p < g.len && InRange(g, from, p)
      ensures s[from].cache.k[p] == start[from].k[p] && s[from].cache.v[p] == start[from].v[p]
    {
      OwnRows(g, start, s, from, p);
    }
    forall r, isKey | 0 <= r < g.n && r != k
      ensures Has(g, s', k, r, isKey) ==> Has(g, s, k, r, isKey) || m == Message(r, isKey)
    {
      HasAfterMeet(g, start, s, a, b, k, r, isKey);
    }
    hide Has;
  }

  lemma MeetKeepsRows(g: Sync, start: seq<Cache>, s: State, a: nat, b: nat, k: nat)
    requires Inv(g, start, s) && Disjoint(g) && CanMeet(g, s, a, b) && k < g.n
    ensures Shape(g, Meet(g, s, a, b)) && RowsOk(g, start, Meet(g, s, a, b), k)
  {
    hide Script, Receive, RowsOk, SharedOk, Disjoint, Meet;
    if (k != a && k != b) || k == Script(g, a, b)[s[a].index].from {
      SenderKeepsRows(g, start, s, a, b, k);
    } else {
      ReceiverGetsRows(g, start, s, a, b, k);
    }
  }

  lemma MeetKeepsShared(g: Sync, start: seq<Cache>, s: State, a: nat, b: nat, k: nat)
    requires Inv(g, start, s) && CanMeet(g, s, a, b) && k < g.n
    ensures Shape(g, Meet(g, s, a, b)) && SharedOk(g, start, Meet(g, s, a, b), k)
  {
    hide Script, RowsOk, Disjoint;
    assert SharedOk(g, start, s, a) && SharedOk(g, start, s, b) && SharedOk(g, start, s, k);
  }

  lemma MeetKeepsBounds(g: Sync, start: seq<Cache>, s: State, a: nat, b: nat, i: nat)
    requires Inv(g, start, s) && CanMeet(g, s, a, b) && i < g.n
    ensures Shape(g, Meet(g, s, a, b)) && Meet(g, s, a, b)[i].peer <= g.n
    ensures Meet(g, s, a, b)[i].peer < g.n && Meet(g, s, a, b)[i].peer != i ==>
              Meet(g, s, a, b)[i].index <= |Script(g, i, Meet(g, s, a, b)[i].peer)|
    ensures Meet(g, s, a, b)[i].peer == g.n || Meet(g, s, a, b)[i].peer == i ==> Meet(g, s, a, b)[i].index == 0
  {
    ScriptSymmetric(g, a, b);
    hide Script, RowsOk, SharedOk, Disjoint, Progress;
  }

  lemma MeetKeepsSymmetry(g: Sync, start: seq<Cache>, s: State, a: nat, b: nat, c: nat, d: nat)
    requires Inv(g, start, s) && CanMeet(g, s, a, b) && c < g.n && d < g.n && c != d
    ensures |Meet(g, s, a, b)| == g.n
    ensures Progress(g, Meet(g, s, a, b), c, d) == Progress(g, Meet(g, s, a, b), d, c)
  {
    hide Script, RowsOk, SharedOk, Disjoint, Progress, Meet;
    MeetKeepsBounds(g, start, s, a, b, c);
    MeetKeepsProgress(g, start, s, a, b, c, d);
    MeetKeepsProgress(g, start, s, a, b, d, c);
  }

  lemma MeetKeepsInv(g: Sync, start: seq<Cache>, s: State, a: nat, b: nat)
    requires Inv(g, start, s) && CanMeet(g, s, a, b)
    ensures Inv(g, start, Meet(g, s, a, b))
  {
    hide Script, Receive, RowsOk, SharedOk, Disjoint, Progress, Meet;
    MeetKeepsBounds(g, start, s, a, b, a);
    forall i | 0 <= i < g.n
      ensures Meet(g, s, a, b)[i].peer <= g.n && SharedOk(g, start, Meet(g, s, a, b), i)
      ensures Disjoint(g) ==> RowsOk(g, start, Meet(g, s, a, b), i)
      ensures Meet(g, s, a, b)[i].peer < g.n && Meet(g, s, a, b)[i].peer != i ==>
                Meet(g, s, a, b)[i].index <= |Script(g, i, Meet(g, s, a, b)[i].peer)|
      ensures Meet(g, s, a, b)[i].peer == g.n || Meet(g, s, a, b)[i].peer == i ==> Meet(g, s, a, b)[i].index == 0
    {
      MeetKeepsBounds(g, start, s, a, b, i);
      MeetKeepsShared(g, start, s, a, b, i);
      if Disjoint(g) {
        MeetKeepsRows(g, start, s, a, b, i);
      }
    }
    forall c, d | 0 <= c < g.n && 0 <= d < g.n && c != d
      ensures Progress(g, Meet(g, s, a, b), c, d) == Progress(g, Meet(g, s, a, b), d, c)
    {
      MeetKeepsSymmetry(g, start, s, a, b, c, d);
    }
  }

  ghost predicate Execution(g: Sync, start: seq<Cache>, run: seq<State>) {
    && Valid(g) && |run| > 0 && Init(g, start, run[0])
    && forall k :: 0 <= k < |run| - 1 ==> Shape(g, run[k]) && Next(g, run[k], run[k + 1])
  }

  lemma {:induction false} Reachable(g: Sync, start: seq<Cache>, run: seq<State>, k: nat)
    requires Execution(g, start, run) && k < |run|
    ensures Inv(g, start, run[k])
  {
    hide Inv, CanMeet, Meet, Script;
    if k == 0 {
      InitInv(g, start, run[0]);
    } else {
      Reachable(g, start, run, k - 1);
      var s, s' := run[k - 1], run[k];
      assert Next(g, run[k - 1], run[k - 1 + 1]);
      if i :| CanAdvance(g, s, i) && s' == Advance(s, i) {
        AdvanceKeepsInv(g, start, s, i);
      } else {
        var a, b :| CanMeet(g, s, a, b) && s' == Meet(g, s, a, b);
        MeetKeepsInv(g, start, s, a, b);
      }
    }
  }

  // ---------------------------------------------------------------------------
  // No deadlock
  // ---------------------------------------------------------------------------

  ghost predicate CanMove(g: Sync, s: State) {
    (exists i :: CanAdvance(g, s, i)) || (exists a, b :: CanMeet(g, s, a, b))
  }

  /** A blocked rank either meets its peer or the peer is blocked at a pair that comes earlier
      in the global order of pairs: by smaller member, then by larger member. */
  lemma {:induction false} BlockedRankMoves(g: Sync, start: seq<Cache>, s: State, i: nat)
    requires Inv(g, start, s) && i < g.n && s[i].peer < g.n
    ensures CanMove(g, s)
    decreases Min(i, s[i].peer), i + s[i].peer
  {
    hide Script, RowsOk, SharedOk, Disjoint;
    var p := s[i].peer;
    if !CanAdvance(g, s, i) {
      assert Progress(g, s, i, p) == Progress(g, s, p, i);
      ScriptSymmetric(g, i, p);
      if s[p].peer == i {
        assert CanMeet(g, s, Min(i, p), if i < p then p else i);
      } else if CanAdvance(g, s, p) {
      } else {
        BlockedRankMoves(g, start, s, p);
      }
    }
  }

  /** In every reachable state that is not final some rank can move, although no channel
      buffers anything. */
  lemma NoDeadlock(g: Sync, start: seq<Cache>, run: seq<State>, k: nat)
    requires Execution(g, start, run) && k < |run| && !Done(g, run[k])
    ensures CanMove(g, run[k])
  {
    Reachable(g, start, run, k);
    var i :| 0 <= i < |run[k]| && run[k][i].peer != g.n;
    hide Execution;
    BlockedRankMoves(g, start, run[k], i);
  }

  // ---------------------------------------------------------------------------
  // Every exchange ends
  // ---------------------------------------------------------------------------

  // Peers still to visit, at four messages and one step each, less the messages exchanged.
  function RankBudget(g: Sync, r: Rank): int {
    (g.n - r.peer) * 5 - r.index
  }

  function Budget(g: Sync, s: State, k: nat): int
    requires k <= |s|
  {
    if k == 0 then 0 else Budget(g, s, k - 1) + RankBudget(g, s[k - 1])
  }

  lemma ScriptLength(g: Sync, a: nat, b: nat)
    ensures |Script(g, a, b)| <= 4
  {
  }

  lemma RankBudgetNonNegative(g: Sync, start: seq<Cache>, s: State, i: nat)
    requires Inv(g, start, s) && i < g.n
    ensures RankBudget(g, s[i]) >= 0
    ensures CanAdvance(g, s, i) ==> RankBudget(g, Advance(s, i)[i]) < RankBudget(g, s[i])
  {
    hide Script, RowsOk, SharedOk, Disjoint, Progress;
    if s[i].peer < g.n {
      ScriptLength(g, i, s[i].peer);
    }
  }

  lemma {:induction false} BudgetNonNegative(g: Sync, start: seq<Cache>, s: State, k: nat)
    requires Inv(g, start, s) && k <= g.n
    ensures |s| == g.n && Budget(g, s, k) >= 0
  {
    hide Script, RowsOk, SharedOk, Disjoint, Progress, RankBudget;
    if k > 0 {
      BudgetNonNegative(g, start, s, k - 1);
      RankBudgetNonNegative(g, start, s, k - 1);
    }
  }

  lemma {:induction false} BudgetDrops(g: Sync, s: State, s': State, k: nat)
    requires |s| == |s'| && k <= |s|
    requires forall i :: 0 <= i < |s| ==> RankBudget(g, s'[i]) <= RankBudget(g, s[i])
    ensures Budget(g, s', k) <= Budget(g, s, k)
    ensures (exists i :: 0 <= i < k && RankBudget(g, s'[i]) < RankBudget(g, s[i])) ==> Budget(g, s', k) < Budget(g, s, k)
  {
    hide RankBudget;
    if k > 0 {
      BudgetDrops(g, s, s', k - 1);
    }
  }

  /** Every action uses up a budget that is never negative. */
  lemma EveryActionCounts(g: Sync, start: seq<Cache>, s: State, s': State)
    requires Inv(g, start, s) && Next(g, s, s')
    ensures Inv(g, start, s') && |s'| == |s| == g.n && 0 <= Budget(g, s', g.n) < Budget(g, s, g.n)
  {
    hide Inv, CanMeet, Script, RankBudget, Budget;
    ShapeOf(g, start, s);
    if i :| CanAdvance(g, s, i) && s' == Advance(s, i) {
      AdvanceCounts(g, start, s, i);
    } else {
      var a, b :| CanMeet(g, s, a, b) && s' == Meet(g, s, a, b);
      MeetCounts(g, start, s, a, b);
    }
    BudgetNonNegative(g, start, s', g.n);
  }

  lemma AdvanceCounts(g: Sync, start: seq<Cache>, s: State, i: nat)
    requires Inv(g, start, s) && CanAdvance(g, s, i)
    ensures Inv(g, start, Advance(s, i)) && |s| == g.n && Budget(g, Advance(s, i), g.n) < Budget(g, s, g.n)
  {
    hide Script, RowsOk, SharedOk, Disjoint, Progress, RankBudget, Budget;
    AdvanceKeepsInv(g, start, s, i);
    RankBudgetNonNegative(g, start, s, i);
    BudgetDrops(g, s, Advance(s, i), g.n);
  }

  lemma MeetCounts(g: Sync, start: seq<Cache>, s: State, a: nat, b: nat)
    requires Inv(g, start, s) && CanMeet(g, s, a, b)
    ensures Inv(g, start, Meet(g, s, a, b)) && |s| == g.n && Budget(g, Meet(g, s, a, b), g.n) < Budget(g, s, g.n)
  {
    hide Script, RowsOk, SharedOk, Disjoint, Progress, Budget;
    MeetKeepsInv(g, start, s, a, b);
    var s' := Meet(g, s, a, b);
    assert RankBudget(g, s'[a]) < RankBudget(g, s[a]);
    BudgetDrops(g, s, s', g.n);
  }

  // A run can be continued until all ranks are done.
  lemma {:induction false} Completed(g: Sync, start: seq<Cache>, run: seq<State>) returns (whole: seq<State>)
    requires Execution(g, start, run)
    ensures Execution(g, start, whole) && Done(g, whole[|whole| - 1])
    decreases if |run| > 0 && |run[|run| - 1]| >= g.n then Budget(g, run[|run| - 1], g.n) else 0
  {
    hide Inv, Budget, CanMeet, CanAdvance, Advance, Meet;
    var n := |run| - 1;
    var s := run[n];
    Reachable(g, start, run, n);
    if Done(g, s) {
      whole := run;
    } else {
      NoDeadlock(g, start, run, n);
      ShapeOf(g, start, s);
      var s' := Step(g, s);
      EveryActionCounts(g, start, s, s');
      var longer := run + [s'];
      Extends(g, start, run, s');
      whole := Completed(g, start, longer);
    }
  }

  lemma ShapeOf(g: Sync, start: seq<Cache>, s: State)
    requires Inv(g, start, s)
    ensures Shape(g, s)
  {
  }

  lemma Step(g: Sync, s: State) returns (s': State)
    requires Shape(g, s) && CanMove(g, s)
    ensures Next(g, s, s')
  {
    hide CanMeet, CanAdvance, Advance, Meet;
    if i: nat :| CanAdvance(g, s, i) {
      AdvanceDefined(g, s, i);
      s' := Advance(s, i);
    } else {
      var a: nat, b: nat :| CanMeet(g, s, a, b);
      s' := Meet(g, s, a, b);
    }
  }

  lemma AdvanceDefined(g: Sync, s: State, i: nat)
    requires CanAdvance(g, s, i)
    ensures i < |s|
  {
  }

  lemma Extends(g: Sync, start: seq<Cache>, run: seq<State>, s': State)
    requires Execution(g, start, run) && Shape(g, run[|run| - 1]) && Next(g, run[|run| - 1], s')
    ensures Execution(g, start, run + [s'])
  {
    hide Next, Shape, Init;
  }

  /** A complete run of the exchange exists, whatever the ranges. */
  lemma CompleteRunExists(g: Sync, start: seq<Cache>) returns (run: seq<State>)
    requires Valid(g) && |start| == g.n && forall r :: 0 <= r < g.n ==> |start[r].k| == |start[r].v| == g.len
    ensures Execution(g, start, run) && Done(g, run[|run| - 1])
  {
    var s := seq(g.n, i requires 0 <= i < g.n => Rank(0, 0, start[i]));
    assert Init(g, start, s);
    hide Init, Done;
    run := Completed(g, start, [s]);
  }

  // ---------------------------------------------------------------------------
  // Result of one exchange
  // ---------------------------------------------------------------------------

  lemma EverythingReceived(g: Sync, start: seq<Cache>, s: State, i: nat, r: nat, p: nat, isKey: bool)
    requires Inv(g, start, s) && Done(g, s) && i < g.n && r < g.n && i != r && InRange(g, r, p)
    ensures Has(g, s, i, r, isKey)
  {
    var script := Script(g, i, r);
    var base := if i < r && |Sends(g, i)| > 0 then 2 else 0;
    var q := base + if isKey then 0 else 1;
    assert script[q] == Message(r, isKey);
  }

  /** After an exchange of disjoint ranges every rank holds, at each contributed position, the key
      and value rows of the rank that contributes it, and its other rows are as before. */
  lemma ExchangeResult(g: Sync, start: seq<Cache>, run: seq<State>, k: nat, i: nat, p: nat)
    requires Disjoint(g) && Execution(g, start, run) && k < |run| && Done(g, run[k]) && i < g.n && p < g.len
    ensures Shape(g, run[k]) && |start| == g.n && forall r :: 0 <= r < g.n ==> |start[r].k| == |start[r].v| == g.len
    ensures forall r :: 0 <= r < g.n && InRange(g, r, p) ==>
              run[k][i].cache.k[p] == start[r].k[p] && run[k][i].cache.v[p] == start[r].v[p]
    ensures (forall r :: 0 <= r < g.n ==> !InRange(g, r, p)) ==>
              run[k][i].cache.k[p] == start[i].k[p] && run[k][i].cache.v[p] == start[i].v[p]
  {
    Reachable(g, start, run, k);
    var s := run[k];
    hide Execution, Has, Shared;
    assert RowsOk(g, start, s, i);
    forall r | 0 <= r < g.n && InRange(g, r, p)
      ensures s[i].cache.k[p] == start[r].k[p] && s[i].cache.v[p] == start[r].v[p]
    {
      if r == i {
        OwnRows(g, start, s, i, p);
      } else {
        EverythingReceived(g, start, s, i, r, p, true);
        EverythingReceived(g, start, s, i, r, p, false);
      }
    }
  }

  /** Where all ranks hold the same rows they go on holding them, disjoint ranges or not. */
  lemma ExchangeKeepsShared(g: Sync, start: seq<Cache>, run: seq<State>, k: nat, i: nat, p: nat)
    requires Execution(g, start, run) && k < |run| && i < g.n && p < g.len && Shared(start, p)
    ensures Shape(g, run[k]) && |start| == g.n && |start[i].k| == |start[i].v| == g.len
    ensures run[k][i].cache.k[p] == start[i].k[p] && run[k][i].cache.v[p] == start[i].v[p]
  {
    Reachable(g, start, run, k);
    hide Execution, Has, Shared;
    assert SharedOk(g, start, run[k], i);
  }

  // ---------------------------------------------------------------------------
  // The ranges of a chunk
  // ---------------------------------------------------------------------------

  /** A group of n ranks for sequences of n * local positions; with `cp` the rows of a chunk are
      split over the ranks, otherwise every rank keeps a fixed range of positions. */
  datatype Group = Group(n: nat, local: nat, cp: bool)

  /** One prefill chunk: positions [pos, pos + batch). `stale` is what the position buffer holds
      behind them. */
  datatype ChunkOf = ChunkOf(pos: nat, batch: nat, stale: nat)

  predicate ChunkOk(u: Group, c: ChunkOf) {
    u.n >= 2 && u.local >= 1 && c.batch >= 1 && c.pos + c.batch <= u.n * u.local
  }

  // The exchange goes by rows of the chunk.
  predicate ByRows(u: Group, c: ChunkOf) {
    u.cp && c.batch > 1
  }

  // The chunk's rows are computed by one rank each.
  predicate Divided(u: Group, c: ChunkOf) {
    !u.cp || c.batch >= u.n
  }

  function PositionAt(c: ChunkOf, b: nat): nat {
    if b < c.batch then c.pos + b else c.stale
  }

  // `blockRange`: positions of the first and behind the last row of the rank's block.
  function BlockStart(u: Group, c: ChunkOf, r: nat): nat
    requires u.n > 0
  {
    PositionAt(c, Start(c.batch, u.n, r))
  }

  function BlockEnd(u: Group, c: ChunkOf, r: nat): nat
    requires u.n > 0
  {
    var b := Start(c.batch, u.n, r) + Count(c.batch, u.n, r);
    if b == 0 then 0 else PositionAt(c, b - 1) + 1
  }

  /** `sliceKvCache`: the fixed range of a rank, as its configuration holds it. */
  datatype KvSlice = KvSlice(localSeqStart: nat, localSeqLen: nat)

  function SliceKv(seqLen: nat, spSize: nat, spRank: nat): KvSlice
    requires spSize > 0
  {
    KvSlice(spRank * (seqLen / spSize), seqLen / spSize)
  }

  datatype Range = Range(start: nat, end: nat)

  // The range a rank sends.
  function OwnRange(u: Group, c: ChunkOf, me: nat): Range
    requires u.n > 0
  {
    if ByRows(u, c) then Range(BlockStart(u, c, me), BlockEnd(u, c, me))
    else
      var slice := SliceKv(u.n * u.local, u.n, me);
      Range(slice.localSeqStart, slice.localSeqStart + slice.localSeqLen)
  }

  // The range it expects from a peer, computed from its own configuration.
  function PeerRange(u: Group, c: ChunkOf, me: nat, peer: nat): Range
    requires u.n > 0
  {
    if ByRows(u, c) then Range(BlockStart(u, c, peer), BlockEnd(u, c, peer))
    else
      var slice := SliceKv(u.n * u.local, u.n, me);
      Range(peer * slice.localSeqLen, peer * slice.localSeqLen + slice.localSeqLen)
  }

  // Only positions up to the last one of the chunk are active.
  function Active(c: ChunkOf, r: Range): nat {
    if c.pos + c.batch < r.end then c.pos + c.batch else r.end
  }

  // The two messages of a rank, if its active range is not empty.
  function SendsOf(c: ChunkOf, r: nat, range: Range): seq<Message> {
    if Active(c, range) > range.start then [Message(r, true), Message(r, false)] else []
  }

  // What rank `me` does with a peer: the lower rank sends first.
  function Calls(u: Group, c: ChunkOf, me: nat, peer: nat): seq<Message>
    requires u.n > 0
  {
    var mine, theirs := SendsOf(c, me, OwnRange(u, c, me)), SendsOf(c, peer, PeerRange(u, c, me, peer));
    if me < peer then mine + theirs else theirs + mine
  }

  function ActiveEnd(u: Group, c: ChunkOf, r: nat): nat
    requires u.n > 0
  {
    Active(c, OwnRange(u, c, r))
  }

  ghost function SyncOf(u: Group, c: ChunkOf): Sync
    requires ChunkOk(u, c)
  {
    Sync(u.n, u.n * u.local, seq(u.n, r requires 0 <= r < u.n => OwnRange(u, c, r).start),
         seq(u.n, r requires 0 <= r < u.n => ActiveEnd(u, c, r)))
  }

  /** Both ends of a pair, each computing both ranges for itself, make matching calls over the
      same positions: what one writes is what the other reads. */
  lemma BothEndsAgree(u: Group, c: ChunkOf, me: nat, peer: nat)
    requires ChunkOk(u, c) && me < u.n && peer < u.n && me != peer
    ensures PeerRange(u, c, me, peer) == OwnRange(u, c, peer)
    ensures Calls(u, c, me, peer) == Calls(u, c, peer, me) == Script(SyncOf(u, c), me, peer)
  {
    hide BlockStart, BlockEnd;
  }

  lemma WholeParts(n: nat, w: nat)
    requires n > 0
    ensures n * w / n == w
  {
    QuotientUnique(n * w, n, w, 0);
  }

  lemma FixedRange(u: Group, c: ChunkOf, r: nat)
    requires ChunkOk(u, c) && !ByRows(u, c)
    ensures OwnRange(u, c, r) == Range(r * u.local, (r + 1) * u.local)
  {
    WholeParts(u.n, u.local);
    NextMultiple(r, u.local);
  }

  // Where every block has a row, blocks are ranges of rows.
  lemma BlockRange(u: Group, c: ChunkOf, r: nat)
    requires ChunkOk(u, c) && u.cp && c.batch >= u.n && r < u.n
    ensures OwnRange(u, c, r) == Range(c.pos + Start(c.batch, u.n, r), c.pos + Start(c.batch, u.n, r) + Count(c.batch, u.n, r))
    ensures Start(c.batch, u.n, r) + Count(c.batch, u.n, r) <= c.batch
  {
    BlockInside(c.batch, u.n, r);
    assert c.batch / u.n >= 1;
  }

  lemma BlockInside(len: nat, n: nat, r: nat)
    requires n > 0 && r < n
    ensures Start(len, n, r) + Count(len, n, r) <= len
  {
    hide Start, Count;
    NextStart(len, n, r);
    StartMonotone(len, n, r + 1, n);
    Ends(len, n);
  }

  // Fewer rows than ranks: one row each, and nothing but stale positions for the last ranks.
  lemma SmallBlock(u: Group, c: ChunkOf, r: nat)
    requires ChunkOk(u, c) && ByRows(u, c) && c.batch < u.n && r < u.n
    ensures OwnRange(u, c, r) == if r < c.batch then Range(c.pos + r, c.pos + r + 1) else Range(c.stale, c.pos + c.batch)
  {
    assert c.batch / u.n == 0 && c.batch % u.n == c.batch;
    assert r * (c.batch / u.n) == 0;
  }

  lemma BlocksOrdered(q: nat, r: nat, w: nat)
    requires q < r
    ensures (q + 1) * w <= r * w
  {
    assert r * w == (q + 1) * w + (r - q - 1) * w;
    ProductMonotone(0, r - q - 1, w);
  }

  lemma BlockOf(n: nat, w: nat, p: nat) returns (r: nat)
    requires w >= 1 && p < n * w
    ensures r < n && r * w <= p < (r + 1) * w
  {
    r := p / w;
    assert p == r * w + p % w;
    assert (r + 1) * w == r * w + w;
    if n < r {
      BlocksOrdered(n, r, w);
    }
  }

  /** Ranges lie inside the buffer, and they overlap exactly when a chunk is split over more ranks
      than it has rows and the stale position behind them lies in or before the chunk. */
  lemma DisjointExactlyWhen(u: Group, c: ChunkOf)
    requires ChunkOk(u, c)
    ensures Valid(SyncOf(u, c)) && forall r: nat, p: nat :: InRange(SyncOf(u, c), r, p) ==> p < u.n * u.local
    ensures Disjoint(SyncOf(u, c)) <==> !(u.cp && 1 < c.batch < u.n && c.stale < c.pos + c.batch)
  {
    hide OwnRange;
    var g := SyncOf(u, c);
    if ByRows(u, c) && c.batch < u.n && c.stale < c.pos + c.batch {
      var p := c.pos + c.batch - 1;
      SmallBlock(u, c, c.batch - 1);
      SmallBlock(u, c, c.batch);
      assert InRange(g, c.batch - 1, p) && InRange(g, c.batch, p);
    } else {
      forall q, r, p | 0 <= q < g.n && 0 <= r < g.n && InRange(g, q, p) && InRange(g, r, p)
        ensures q == r
      {
        RangesDisjoint(u, c, q, r, p);
      }
    }
  }

  lemma RangesDisjoint(u: Group, c: ChunkOf, q: nat, r: nat, p: nat)
    requires ChunkOk(u, c) && q < u.n && r < u.n
    requires !ByRows(u, c) || c.batch >= u.n || c.stale >= c.pos + c.batch
    requires InRange(SyncOf(u, c), q, p) && InRange(SyncOf(u, c), r, p)
    ensures q == r
  {
    hide Start, Count, OwnRange;
    if !ByRows(u, c) {
      FixedRange(u, c, q);
      FixedRange(u, c, r);
      if q < r {
        BlocksOrdered(q, r, u.local);
      } else if r < q {
        BlocksOrdered(r, q, u.local);
      }
    } else if c.batch >= u.n {
      BlockRange(u, c, q);
      BlockRange(u, c, r);
      EveryElementHasOneOwner(c.batch, u.n, p - c.pos);
      assert InPart(c.batch, u.n, q, p - c.pos) && InPart(c.batch, u.n, r, p - c.pos);
    } else {
      SmallBlock(u, c, q);
      SmallBlock(u, c, r);
    }
  }

  // ---------------------------------------------------------------------------
  // Who stores which row
  // ---------------------------------------------------------------------------

  /** Rank r computes and stores the row of position p of the chunk: its window of batch rows
      in CP mode, which is all of them if there are fewer rows than ranks, the fixed range of
      the write guard otherwise. */
  predicate Writes(u: Group, c: ChunkOf, r: nat, p: nat)
    requires u.n > 0
  {
    && c.pos <= p < c.pos + c.batch
    && if u.cp then c.batch < u.n || InPart(c.batch, u.n, r, p - c.pos) else r * u.local <= p < (r + 1) * u.local
  }

  /** Every position of a divided chunk is written by exactly one rank, and that rank's range
      covers it in the exchange that follows. */
  lemma OneWriter(u: Group, c: ChunkOf, p: nat) returns (r: nat)
    requires ChunkOk(u, c) && Divided(u, c) && c.pos <= p < c.pos + c.batch
    ensures r < u.n && Writes(u, c, r, p) && InRange(SyncOf(u, c), r, p)
    ensures forall q :: 0 <= q < u.n && Writes(u, c, q, p) ==> q == r
  {
    hide Start, Count, OwnRange;
    if u.cp {
      EveryElementHasOneOwner(c.batch, u.n, p - c.pos);
      r :| 0 <= r < u.n && InPart(c.batch, u.n, r, p - c.pos);
      BlockRange(u, c, r);
    } else {
      r := BlockOf(u.n, u.local, p);
      FixedRange(u, c, r);
      forall q | 0 <= q < u.n && Writes(u, c, q, p)
        ensures q == r
      {
        if q < r {
          BlocksOrdered(q, r, u.local);
        } else if r < q {
          BlocksOrdered(r, q, u.local);
        }
      }
    }
  }

  // All ranks hold the rows of `truth` at the positions before pos.
  ghost predicate Agreed(u: Group, caches: seq<Cache>, truth: Cache, pos: nat) {
    && |caches| == u.n && |truth.k| == |truth.v| == u.n * u.local && pos <= u.n * u.local
    && forall r, p :: 0 <= r < u.n && 0 <= p < pos ==>
         |caches[r].k| == |caches[r].v| == u.n * u.local && caches[r].k[p] == truth.k[p] && caches[r].v[p] == truth.v[p]
  }

  // Each rank stores the rows it writes over the cache it had; `truth` takes every row of
  // the chunk from the ranks that write it, which compute the same.
  ghost predicate Shifted(u: Group, c: ChunkOf, before: seq<Cache>, after: seq<Cache>, truth: Cache, truth': Cache)
    requires u.n > 0
  {
    && |before| == |after| == u.n
    && (forall r :: 0 <= r < u.n ==> |after[r].k| == |after[r].v| == |before[r].k| == |before[r].v| == u.n * u.local)
    && |truth'.k| == |truth'.v| == |truth.k| == |truth.v| == u.n * u.local
    && (forall r, p :: 0 <= r < u.n && 0 <= p < u.n * u.local && !Writes(u, c, r, p) ==>
          after[r].k[p] == before[r].k[p] && after[r].v[p] == before[r].v[p])
    && (forall r, p :: 0 <= r < u.n && 0 <= p < u.n * u.local && Writes(u, c, r, p) ==>
          truth'.k[p] == after[r].k[p] && truth'.v[p] == after[r].v[p])
    && (forall p :: 0 <= p < c.pos && p < u.n * u.local ==> truth'.k[p] == truth.k[p] && truth'.v[p] == truth.v[p])
  }

  // What a rank brings to the exchange in its own range is the truth.
  lemma ContributionIsTruth(u: Group, c: ChunkOf, before: seq<Cache>, after: seq<Cache>, truth: Cache, truth': Cache, r: nat, p: nat)
    requires ChunkOk(u, c) && Divided(u, c) && Agreed(u, before, truth, c.pos) && Shifted(u, c, before, after, truth, truth')
    requires r < u.n && InRange(SyncOf(u, c), r, p)
    ensures p < c.pos + c.batch
    ensures after[r].k[p] == truth'.k[p] && after[r].v[p] == truth'.v[p]
  {
    hide Start, Count, OwnRange;
    if p < c.pos {
      assert !Writes(u, c, r, p);
    } else {
      var w := OneWriter(u, c, p);
      RangesDisjoint(u, c, r, w, p);
    }
  }

  lemma UncontributedIsOld(u: Group, c: ChunkOf, before: seq<Cache>, after: seq<Cache>, truth: Cache, truth': Cache, i: nat, p: nat)
    requires ChunkOk(u, c) && Divided(u, c) && Agreed(u, before, truth, c.pos) && Shifted(u, c, before, after, truth, truth')
    requires i < u.n && p < c.pos + c.batch && forall r :: 0 <= r < u.n ==> !InRange(SyncOf(u, c), r, p)
    ensures after[i].k[p] == truth'.k[p] && after[i].v[p] == truth'.v[p]
  {
    hide Start, Count, OwnRange;
    if p >= c.pos {
      var w := OneWriter(u, c, p);
      assert false;
    }
    assert !Writes(u, c, i, p);
  }

  // Without division every rank has stored every row of the chunk itself.
  lemma UndividedIsTruth(u: Group, c: ChunkOf, before: seq<Cache>, after: seq<Cache>, truth: Cache, truth': Cache, p: nat)
    requires ChunkOk(u, c) && !Divided(u, c) && Agreed(u, before, truth, c.pos) && Shifted(u, c, before, after, truth, truth')
    requires p < c.pos + c.batch
    ensures Shared(after, p) && forall i :: 0 <= i < u.n ==> after[i].k[p] == truth'.k[p] && after[i].v[p] == truth'.v[p]
  {
    forall i | 0 <= i < u.n
      ensures after[i].k[p] == truth'.k[p] && after[i].v[p] == truth'.v[p]
    {
      assert Writes(u, c, i, p) <==> p >= c.pos;
    }
  }

  /** One chunk: if all ranks agree on the positions before it, then after the shift and any
      complete run of the exchange they agree on the positions of the chunk too, each row
      being the one its writer stored. */
  lemma ChunkExtendsAgreement(u: Group, c: ChunkOf, before: seq<Cache>, shifted: seq<Cache>, truth: Cache, truth': Cache,
                              run: seq<State>, k: nat)
    requires ChunkOk(u, c) && Agreed(u, before, truth, c.pos) && Shifted(u, c, before, shifted, truth, truth')
    requires Execution(SyncOf(u, c), shifted, run) && k < |run| && Done(SyncOf(u, c), run[k])
    ensures |run[k]| == u.n && Agreed(u, CachesOf(run[k]), truth', c.pos + c.batch)
  {
    var g := SyncOf(u, c);
    var s := run[k];
    Reachable(g, shifted, run, k);
    hide Execution, Done, Writes, OwnRange, Disjoint, RowsOk, SharedOk, Shared, Progress, Script;
    DisjointExactlyWhen(u, c);
    forall i, p | 0 <= i < u.n && 0 <= p < c.pos + c.batch
      ensures s[i].cache.k[p] == truth'.k[p] && s[i].cache.v[p] == truth'.v[p]
    {
      if !Divided(u, c) {
        UndividedIsTruth(u, c, before, shifted, truth, truth', p);
        ExchangeKeepsShared(g, shifted, run, k, i, p);
      } else {
        ExchangeResult(g, shifted, run, k, i, p);
        if r :| 0 <= r < u.n && InRange(g, r, p) {
          ContributionIsTruth(u, c, before, shifted, truth, truth', r, p);
        } else {
          UncontributedIsOld(u, c, before, shifted, truth, truth', i, p);
        }
      }
    }
  }

  // ---------------------------------------------------------------------------
  // Whole prefills
  // ---------------------------------------------------------------------------

  /** One chunk of a prefill: what the ranks hold after storing their rows, the rows the
      ranks should agree on, and a complete run of the exchange. */
  datatype Round = Round(chunk: ChunkOf, shifted: seq<Cache>, truth: Cache, run: seq<State>)

  ghost function CachesOf(s: State): (out: seq<Cache>)
    ensures |out| == |s|
  {
    seq(|s|, r requires 0 <= r < |s| => s[r].cache)
  }

  ghost function After(r: Round): seq<Cache> {
    if r.run == [] then [] else CachesOf(r.run[|r.run| - 1])
  }

  ghost predicate RoundOk(u: Group, before: seq<Cache>, truth: Cache, r: Round) {
    && r.run != [] && ChunkOk(u, r.chunk) && Shifted(u, r.chunk, before, r.shifted, truth, r.truth)
    && Execution(SyncOf(u, r.chunk), r.shifted, r.run) && Done(SyncOf(u, r.chunk), r.run[|r.run| - 1])
  }

  // The chunks cover consecutive positions, starting at pos.
  ghost predicate Prefill(u: Group, before: seq<Cache>, truth: Cache, pos: nat, rounds: seq<Round>)
    decreases |rounds|
  {
    rounds == []
    || (rounds[0].chunk.pos == pos && RoundOk(u, before, truth, rounds[0])
        && Prefill(u, After(rounds[0]), rounds[0].truth, pos + rounds[0].chunk.batch, rounds[1..]))
  }

  /** Over any prefill, cut into chunks anyhow, all ranks agree after the last exchange on every
      position prefilled so far, and hold there the row that its writer stored. */
  lemma {:induction false} PrefillAgrees(u: Group, before: seq<Cache>, truth: Cache, pos: nat, rounds: seq<Round>)
    requires rounds != [] && Agreed(u, before, truth, pos) && Prefill(u, before, truth, pos, rounds)
    ensures var last := rounds[|rounds| - 1];
            Agreed(u, After(last), last.truth, last.chunk.pos + last.chunk.batch)
    decreases |rounds|
  {
    hide Execution, Done, Agreed, Shifted, ChunkOk, SyncOf;
    var r := rounds[0];
    ChunkExtendsAgreement(u, r.chunk, before, r.shifted, truth, r.truth, r.run, |r.run| - 1);
    if |rounds| > 1 {
      assert rounds[1..][|rounds[1..]| - 1] == rounds[|rounds| - 1];
      PrefillAgrees(u, After(r), r.truth, pos + r.chunk.batch, rounds[1..]);
    }
  }

  /** And there is such a round for every chunk, whatever the ranks stored. */
  lemma RoundExists(u: Group, c: ChunkOf, before: seq<Cache>, shifted: seq<Cache>, truth: Cache, truth': Cache) returns (r: Round)
    requires ChunkOk(u, c) && Shifted(u, c, before, shifted, truth, truth')
    ensures r.chunk == c && r.shifted == shifted && r.truth == truth' && RoundOk(u, before, truth, r)
  {
    hide Done, OwnRange, Writes, ActiveEnd, Next, Init;
    DisjointExactlyWhen(u, c);
    var run := CompleteRunExists(SyncOf(u, c), shifted);
    r := Round(c, shifted, truth', run);
  }

  // Rows of the batch rank r visits: its window in CP mode, if it has one, or all of them.
  function WindowStart(u: Group, c: ChunkOf, r: nat): nat
    requires u.n > 0
  {
    if u.cp && c.batch >= u.n then Start(c.batch, u.n, r) else 0
  }

  function WindowEnd(u: Group, c: ChunkOf, r: nat): nat
    requires u.n > 0
  {
    if u.cp && c.batch >= u.n then Start(c.batch, u.n, r) + Count(c.batch, u.n, r) else c.batch
  }

  lemma WindowInside(u: Group, c: ChunkOf, r: nat)
    requires u.n > 0 && r < u.n
    ensures WindowStart(u, c, r) <= WindowEnd(u, c, r) <= c.batch
  {
    hide Start, Count;
    BlockInside(c.batch, u.n, r);
  }

  /** The shift op: rank r stores the rows it owns at their positions and leaves every other
      row of its buffer alone. */
  method ShiftRows(u: Group, c: ChunkOf, r: nat, input: array<Row>, cache: array<Row>)
    requires ChunkOk(u, c) && r < u.n && input.Length == c.batch && cache.Length == u.n * u.local
    requires input != cache
    modifies cache
    ensures forall p :: 0 <= p < cache.Length ==>
              cache[p] == if Writes(u, c, r, p) then input[p - c.pos] else old(cache[p])
  {
    WindowInside(u, c, r);
    var b, end := WindowStart(u, c, r), WindowEnd(u, c, r);
    hide Start, Count;
    while b < end
      invariant WindowStart(u, c, r) <= b <= end
      invariant forall p :: 0 <= p < cache.Length ==>
                  cache[p] == if Writes(u, c, r, p) && p < c.pos + b then input[p - c.pos] else old(cache[p])
    {
      var index := c.pos + b;
      if u.cp || r * u.local <= index < (r + 1) * u.local {
        cache[index] := input[b];
      }
      b := b + 1;
    }
  }
}
