/** The chunked exchange of activation slices: every thread of every node alternates between
    writing one chunk to each of its peers and reading one chunk from each, over FIFO
    channels that hold at least one chunk per direction. */
module SliceExchange {
  import opened Arithmetic
  import opened Common

  const CHUNK: nat := 32768

  // ---------------------------------------------------------------------------
  // Sockets
  // ---------------------------------------------------------------------------

  /** `getSocketIndexForNode`. */
  function SocketFor(me: nat, peer: nat): nat
    requires me != peer
  {
    if me == 0 then peer - 1 else if peer == 0 then 0 else if peer < me then peer else peer - 1
  }

  // The node behind a socket: a node's sockets skip the node itself.
  function PeerAt(me: nat, socket: nat): nat {
    if socket >= me then socket + 1 else socket
  }

  /** Sockets and peers of a node are in bijection. */
  lemma SocketsArePeers(n: nat, me: nat, peer: nat, socket: nat)
    requires me < n
    ensures peer < n && peer != me ==> SocketFor(me, peer) < n - 1 && PeerAt(me, SocketFor(me, peer)) == peer
    ensures socket < n - 1 ==> PeerAt(me, socket) < n && PeerAt(me, socket) != me && SocketFor(me, PeerAt(me, socket)) == socket
  {
  }

  // ---------------------------------------------------------------------------
  // Transition system
  // ---------------------------------------------------------------------------

  /** `nodes` nodes with `threads` threads each move `size` bytes to every peer, or, with
      `toRoot`, from every worker to node 0 only. A channel holds `capacity` chunks. */
  datatype Net = Net(nodes: nat, threads: nat, size: nat, capacity: nat, toRoot: bool)

  predicate Valid(g: Net) {
    g.nodes >= 2 && g.threads >= 1 && g.capacity >= 1
  }

  predicate Uses(g: Net, i: nat, j: nat) {
    i < g.nodes && j < g.nodes && i != j && (g.toRoot ==> j == 0)
  }

  // The thread of node `me` that serves the socket to `peer`.
  function ThreadFor(g: Net, me: nat, peer: nat): (t: nat)
    requires Valid(g) && me != peer
    ensures t < g.threads
  {
    SocketFor(me, peer) % g.threads
  }

  function Rounds(g: Net): nat {
    (g.size + CHUNK - 1) / CHUNK
  }

  function Limit(k: nat, size: nat): nat {
    if k * CHUNK < size then k * CHUNK else size
  }

  function Chunk(data: Bytes, k: nat): Bytes {
    data[Limit(k, |data|)..Limit(k + 1, |data|)]
  }

  // One thread of one node; Read follows Write in every round.
  datatype Actor = Actor(round: nat, reading: bool)

  // One direction between two nodes: counters, bytes in flight, bytes delivered.
  datatype Channel = Channel(sent: nat, rcvd: nat, queue: seq<Bytes>, got: Bytes)

  datatype State = State(actors: seq<seq<Actor>>, chans: seq<seq<Channel>>)

  predicate Shape(g: Net, s: State) {
    && |s.actors| == g.nodes && (forall i :: 0 <= i < g.nodes ==> |s.actors[i]| == g.threads)
    && |s.chans| == g.nodes && (forall i :: 0 <= i < g.nodes ==> |s.chans[i]| == g.nodes)
  }

  function WithActor(g: Net, s: State, i: nat, t: nat, a: Actor): State
    requires Shape(g, s) && i < g.nodes && t < g.threads
  {
    s.(actors := s.actors[i := s.actors[i][t := a]])
  }

  function WithChan(g: Net, s: State, i: nat, j: nat, c: Channel): State
    requires Shape(g, s) && i < g.nodes && j < g.nodes
  {
    s.(chans := s.chans[i := s.chans[i][j := c]])
  }

  function Writer(g: Net, s: State, i: nat, j: nat): Actor
    requires Valid(g) && Shape(g, s) && Uses(g, i, j)
  {
    s.actors[i][ThreadFor(g, i, j)]
  }

  function Reader(g: Net, s: State, i: nat, j: nat): Actor
    requires Valid(g) && Shape(g, s) && Uses(g, i, j)
  {
    s.actors[j][ThreadFor(g, j, i)]
  }

  predicate CanWrite(g: Net, s: State, i: nat, j: nat)
    requires Valid(g) && Shape(g, s)
  {
    && Uses(g, i, j)
    && !Writer(g, s, i, j).reading && Writer(g, s, i, j).round < Rounds(g)
    && s.chans[i][j].sent == Writer(g, s, i, j).round
    && |s.chans[i][j].queue| < g.capacity
  }

  function Write(g: Net, data: seq<Bytes>, s: State, i: nat, j: nat): State
    requires Valid(g) && Shape(g, s) && |data| == g.nodes && CanWrite(g, s, i, j)
  {
    var c := s.chans[i][j];
    WithChan(g, s, i, j, c.(sent := c.sent + 1, queue := c.queue + [Chunk(data[i], c.sent)]))
  }

  predicate CanRead(g: Net, s: State, i: nat, j: nat)
    requires Valid(g) && Shape(g, s)
  {
    && Uses(g, i, j)
    && Reader(g, s, i, j).reading && Reader(g, s, i, j).round < Rounds(g)
    && s.chans[i][j].rcvd == Reader(g, s, i, j).round
    && |s.chans[i][j].queue| > 0
  }

  function Read(g: Net, s: State, i: nat, j: nat): State
    requires Valid(g) && Shape(g, s) && CanRead(g, s, i, j)
  {
    var c := s.chans[i][j];
    WithChan(g, s, i, j, c.(rcvd := c.rcvd + 1, queue := c.queue[1..], got := c.got + c.queue[0]))
  }

  // writeMany returns once every peer of the thread has its chunk.
  predicate CanEndWrite(g: Net, s: State, i: nat, t: nat)
    requires Valid(g) && Shape(g, s) && i < g.nodes && t < g.threads
  {
    && !s.actors[i][t].reading && s.actors[i][t].round < Rounds(g)
    && forall j :: 0 <= j < g.nodes && Uses(g, i, j) && ThreadFor(g, i, j) == t ==> s.chans[i][j].sent == s.actors[i][t].round + 1
  }

  // readMany returns once a chunk has come from every peer of the thread.
  predicate CanEndRead(g: Net, s: State, i: nat, t: nat)
    requires Valid(g) && Shape(g, s) && i < g.nodes && t < g.threads
  {
    && s.actors[i][t].reading && s.actors[i][t].round < Rounds(g)
    && forall j :: 0 <= j < g.nodes && Uses(g, j, i) && ThreadFor(g, i, j) == t ==> s.chans[j][i].rcvd == s.actors[i][t].round + 1
  }

  function EndWrite(g: Net, s: State, i: nat, t: nat): State
    requires Shape(g, s) && i < g.nodes && t < g.threads
  {
    WithActor(g, s, i, t, s.actors[i][t].(reading := true))
  }

  function EndRead(g: Net, s: State, i: nat, t: nat): State
    requires Shape(g, s) && i < g.nodes && t < g.threads
  {
    WithActor(g, s, i, t, Actor(s.actors[i][t].round + 1, false))
  }

  ghost predicate Next(g: Net, data: seq<Bytes>, s: State, s': State)
    requires Valid(g) && Shape(g, s) && |data| == g.nodes
  {
    || (exists i, j :: CanWrite(g, s, i, j) && s' == Write(g, data, s, i, j))
    || (exists i, j :: CanRead(g, s, i, j) && s' == Read(g, s, i, j))
    || (exists i, t :: 0 <= i < g.nodes && 0 <= t < g.threads && CanEndWrite(g, s, i, t) && s' == EndWrite(g, s, i, t))
    || (exists i, t :: 0 <= i < g.nodes && 0 <= t < g.threads && CanEndRead(g, s, i, t) && s' == EndRead(g, s, i, t))
  }

  predicate Init(g: Net, s: State) {
    && Valid(g) && Shape(g, s)
    && (forall i, t :: 0 <= i < g.nodes && 0 <= t < g.threads ==> s.actors[i][t] == Actor(0, false))
    && (forall i, j :: 0 <= i < g.nodes && 0 <= j < g.nodes ==> s.chans[i][j] == Channel(0, 0, [], []))
  }

  predicate Done(g: Net, s: State)
    requires Shape(g, s)
  {
    forall i, t :: 0 <= i < g.nodes && 0 <= t < g.threads ==> s.actors[i][t].round == Rounds(g)
  }

  // ---------------------------------------------------------------------------
  // Invariant
  // ---------------------------------------------------------------------------

  predicate ActorOk(g: Net, a: Actor) {
    a.round <= Rounds(g) && (a.round == Rounds(g) ==> !a.reading)
  }

  // Counters of a channel against the loops at both ends, and the bytes it carries.
  predicate ChannelOk(g: Net, data: Bytes, w: Actor, r: Actor, c: Channel) {
    && (if w.reading then c.sent == w.round + 1 else c.sent == w.round || (c.sent == w.round + 1 && w.round < Rounds(g)))
    && (if r.reading then c.rcvd == r.round || c.rcvd == r.round + 1 else c.rcvd == r.round)
    && c.sent == c.rcvd + |c.queue| && |c.queue| <= g.capacity
    && (forall q :: 0 <= q < |c.queue| ==> c.queue[q] == Chunk(data, c.rcvd + q))
    && c.got == data[..Limit(c.rcvd, |data|)]
  }

  predicate Inv(g: Net, data: seq<Bytes>, s: State) {
    && Valid(g) && Shape(g, s) && |data| == g.nodes
    && (forall i, t :: 0 <= i < g.nodes && 0 <= t < g.threads ==> ActorOk(g, s.actors[i][t]))
    && (forall i, j :: 0 <= i < g.nodes && 0 <= j < g.nodes && Uses(g, i, j) ==>
          ChannelOk(g, data[i], Writer(g, s, i, j), Reader(g, s, i, j), s.chans[i][j]))
  }

  lemma InitInv(g: Net, data: seq<Bytes>, s: State)
    requires Init(g, s) && |data| == g.nodes
    ensures Inv(g, data, s)
  {
    hide Rounds, SocketFor;
  }

  lemma OtherChannelsKept(g: Net, data: seq<Bytes>, s: State, i: nat, j: nat, c: Channel)
    requires Inv(g, data, s) && Uses(g, i, j)
    requires ChannelOk(g, data[i], Writer(g, s, i, j), Reader(g, s, i, j), c)
    ensures Inv(g, data, WithChan(g, s, i, j, c))
  {
    hide ChannelOk, ActorOk, SocketFor, Rounds;
  }

  lemma WriteKeepsInv(g: Net, data: seq<Bytes>, s: State, i: nat, j: nat)
    requires Inv(g, data, s) && CanWrite(g, s, i, j)
    ensures Inv(g, data, Write(g, data, s, i, j))
  {
    hide SocketFor, Rounds, Chunk, Limit;
    assert ChannelOk(g, data[i], Writer(g, s, i, j), Reader(g, s, i, j), s.chans[i][j]);
    var c := s.chans[i][j];
    OtherChannelsKept(g, data, s, i, j, c.(sent := c.sent + 1, queue := c.queue + [Chunk(data[i], c.sent)]));
  }

  lemma NextPrefix(data: Bytes, k: nat)
    ensures data[..Limit(k, |data|)] + Chunk(data, k) == data[..Limit(k + 1, |data|)]
  {
  }

  lemma ReadKeepsInv(g: Net, data: seq<Bytes>, s: State, i: nat, j: nat)
    requires Inv(g, data, s) && CanRead(g, s, i, j)
    ensures Inv(g, data, Read(g, s, i, j))
  {
    hide SocketFor, Rounds, Chunk, Limit;
    assert ChannelOk(g, data[i], Writer(g, s, i, j), Reader(g, s, i, j), s.chans[i][j]);
    var c := s.chans[i][j];
    NextPrefix(data[i], c.rcvd);
    var c' := c.(rcvd := c.rcvd + 1, queue := c.queue[1..], got := c.got + c.queue[0]);
    assert forall q :: 0 <= q < |c'.queue| ==> c'.queue[q] == c.queue[q + 1];
    OtherChannelsKept(g, data, s, i, j, c');
  }

  lemma EndKeepsInv(g: Net, data: seq<Bytes>, s: State, i: nat, t: nat)
    requires Inv(g, data, s) && i < g.nodes && t < g.threads
    ensures CanEndWrite(g, s, i, t) ==> Inv(g, data, EndWrite(g, s, i, t))
    ensures CanEndRead(g, s, i, t) ==> Inv(g, data, EndRead(g, s, i, t))
  {
    hide SocketFor, Rounds, Chunk, Limit;
  }

  lemma NextKeepsInv(g: Net, data: seq<Bytes>, s: State, s': State)
    requires Inv(g, data, s) && Next(g, data, s, s')
    ensures Inv(g, data, s')
  {
    hide CanWrite, CanRead, CanEndWrite, CanEndRead, Write, Read, EndWrite, EndRead, ChannelOk, ActorOk;
    if i, j :| CanWrite(g, s, i, j) && s' == Write(g, data, s, i, j) {
      WriteKeepsInv(g, data, s, i, j);
    } else if i, j :| CanRead(g, s, i, j) && s' == Read(g, s, i, j) {
      ReadKeepsInv(g, data, s, i, j);
    } else if i, t :| 0 <= i < g.nodes && 0 <= t < g.threads && CanEndWrite(g, s, i, t) && s' == EndWrite(g, s, i, t) {
      EndKeepsInv(g, data, s, i, t);
    } else {
      var i, t :| 0 <= i < g.nodes && 0 <= t < g.threads && CanEndRead(g, s, i, t) && s' == EndRead(g, s, i, t);
      EndKeepsInv(g, data, s, i, t);
    }
  }

  ghost predicate Execution(g: Net, data: seq<Bytes>, run: seq<State>) {
    && |run| > 0 && Init(g, run[0]) && |data| == g.nodes
    && forall k :: 0 <= k < |run| - 1 ==> Shape(g, run[k]) && Next(g, data, run[k], run[k + 1])
  }

  lemma {:induction false} Reachable(g: Net, data: seq<Bytes>, run: seq<State>, k: nat)
    requires Execution(g, data, run) && k < |run|
    ensures Inv(g, data, run[k])
  {
    hide Inv, Next;
    if k == 0 {
      InitInv(g, data, run[0]);
    } else {
      Reachable(g, data, run, k - 1);
      assert Next(g, data, run[k - 1], run[k - 1 + 1]);
      NextKeepsInv(g, data, run[k - 1], run[k]);
    }
  }

  // ---------------------------------------------------------------------------
  // No deadlock
  // ---------------------------------------------------------------------------

  ghost predicate CanMove(g: Net, s: State)
    requires Valid(g) && Shape(g, s)
  {
    || (exists i, j :: CanWrite(g, s, i, j))
    || (exists i, j :: CanRead(g, s, i, j))
    || (exists i, t :: 0 <= i < g.nodes && 0 <= t < g.threads && CanEndWrite(g, s, i, t))
    || (exists i, t :: 0 <= i < g.nodes && 0 <= t < g.threads && CanEndRead(g, s, i, t))
  }

  // Progress of a thread through its loop.
  function Key(a: Actor): nat {
    2 * a.round + if a.reading then 1 else 0
  }

  predicate Floor(g: Net, s: State, m: nat)
    requires Shape(g, s)
  {
    forall i, t :: 0 <= i < g.nodes && 0 <= t < g.threads ==> Key(s.actors[i][t]) >= m
  }

  lemma {:induction false} LeastInRow(row: seq<Actor>, k: nat) returns (t: nat)
    requires 0 < k <= |row|
    ensures t < k && forall u :: 0 <= u < k ==> Key(row[t]) <= Key(row[u])
  {
    t := 0;
    if k > 1 {
      t := LeastInRow(row, k - 1);
      if Key(row[k - 1]) < Key(row[t]) {
        t := k - 1;
      }
    }
  }

  lemma {:induction false} LeastActor(g: Net, s: State, k: nat) returns (i: nat, t: nat)
    requires Valid(g) && Shape(g, s) && 0 < k <= g.nodes
    ensures i < k && t < g.threads
    ensures forall h, u :: 0 <= h < k && 0 <= u < g.threads ==> Key(s.actors[i][t]) <= Key(s.actors[h][u])
  {
    t := LeastInRow(s.actors[k - 1], g.threads);
    i := k - 1;
    if k > 1 {
      var h, u := LeastActor(g, s, k - 1);
      if Key(s.actors[h][u]) < Key(s.actors[i][t]) {
        i, t := h, u;
      }
    }
  }

  // A thread that is nowhere ahead of the others finds room in every channel it must write.
  lemma LeastCanWrite(g: Net, data: seq<Bytes>, s: State, i: nat, t: nat)
    requires Inv(g, data, s) && i < g.nodes && t < g.threads && Floor(g, s, Key(s.actors[i][t]))
    requires !s.actors[i][t].reading && s.actors[i][t].round < Rounds(g)
    ensures CanMove(g, s)
  {
    hide SocketFor, Rounds, Chunk, Limit;
    if j :| 0 <= j < g.nodes && Uses(g, i, j) && ThreadFor(g, i, j) == t && s.chans[i][j].sent != s.actors[i][t].round + 1 {
      assert ChannelOk(g, data[i], Writer(g, s, i, j), Reader(g, s, i, j), s.chans[i][j]);
      assert Key(Reader(g, s, i, j)) >= Key(s.actors[i][t]);
      assert CanWrite(g, s, i, j);
    } else {
      assert CanEndWrite(g, s, i, t);
    }
  }

  // ... and data in every channel it must read.
  lemma LeastCanRead(g: Net, data: seq<Bytes>, s: State, i: nat, t: nat)
    requires Inv(g, data, s) && i < g.nodes && t < g.threads && Floor(g, s, Key(s.actors[i][t]))
    requires s.actors[i][t].reading && s.actors[i][t].round < Rounds(g)
    ensures CanMove(g, s)
  {
    hide SocketFor, Rounds, Chunk, Limit;
    if j :| 0 <= j < g.nodes && Uses(g, j, i) && ThreadFor(g, i, j) == t && s.chans[j][i].rcvd != s.actors[i][t].round + 1 {
      assert ChannelOk(g, data[j], Writer(g, s, j, i), Reader(g, s, j, i), s.chans[j][i]);
      assert Key(Writer(g, s, j, i)) >= Key(s.actors[i][t]);
      assert CanRead(g, s, j, i);
    } else {
      assert CanEndRead(g, s, i, t);
    }
  }

  /** However large the payload, one chunk of room per direction is enough: in every
      reachable state that is not final some thread can act. */
  lemma NoDeadlock(g: Net, data: seq<Bytes>, run: seq<State>, k: nat)
    requires Execution(g, data, run) && k < |run|
    ensures Valid(g) && Shape(g, run[k])
    ensures !Done(g, run[k]) ==> CanMove(g, run[k])
  {
    var s := run[k];
    Reachable(g, data, run, k);
    hide Execution, ChannelOk, CanMove, Rounds;
    if !Done(g, s) {
      var i, t := LeastActor(g, s, g.nodes);
      assert ActorOk(g, s.actors[i][t]);
      assert s.actors[i][t].round < Rounds(g) by {
        var h, u :| 0 <= h < g.nodes && 0 <= u < g.threads && s.actors[h][u].round != Rounds(g);
        assert ActorOk(g, s.actors[h][u]) && Key(s.actors[i][t]) <= Key(s.actors[h][u]);
      }
      if s.actors[i][t].reading {
        LeastCanRead(g, data, s, i, t);
      } else {
        LeastCanWrite(g, data, s, i, t);
      }
    }
  }

  // ---------------------------------------------------------------------------
  // Every exchange ends
  // ---------------------------------------------------------------------------

  function Total(f: (nat, nat) -> int, n: nat, m: nat): int {
    if n == 0 then 0 else Total(f, n - 1, m) + RowTotal(f, n - 1, m)
  }

  function RowTotal(f: (nat, nat) -> int, i: nat, m: nat): int {
    if m == 0 then 0 else RowTotal(f, i, m - 1) + f(i, m - 1)
  }

  lemma {:induction false} RowTotalDrops(f: (nat, nat) -> int, f': (nat, nat) -> int, i: nat, m: nat, j: nat)
    requires forall q: nat :: q < m ==> f'(i, q) <= f(i, q)
    ensures RowTotal(f', i, m) <= RowTotal(f, i, m) - if j < m then f(i, j) - f'(i, j) else 0
  {
    if m > 0 {
      RowTotalDrops(f, f', i, m - 1, j);
    }
  }

  lemma {:induction false} TotalDrops(f: (nat, nat) -> int, f': (nat, nat) -> int, n: nat, m: nat, i: nat, j: nat)
    requires forall p: nat, q: nat :: p < n && q < m ==> f'(p, q) <= f(p, q)
    ensures Total(f', n, m) <= Total(f, n, m) - if i < n && j < m then f(i, j) - f'(i, j) else 0
  {
    if n > 0 {
      TotalDrops(f, f', n - 1, m, i, j);
      RowTotalDrops(f, f', n - 1, m, if i == n - 1 then j else m);
    }
  }

  lemma {:induction false} RowTotalNonNegative(f: (nat, nat) -> int, i: nat, m: nat)
    requires forall q: nat :: q < m ==> f(i, q) >= 0
    ensures RowTotal(f, i, m) >= 0
  {
    if m > 0 {
      RowTotalNonNegative(f, i, m - 1);
    }
  }

  lemma {:induction false} TotalNonNegative(f: (nat, nat) -> int, n: nat, m: nat)
    requires forall p: nat, q: nat :: p < n && q < m ==> f(p, q) >= 0
    ensures Total(f, n, m) >= 0
  {
    if n > 0 {
      TotalNonNegative(f, n - 1, m);
      RowTotalNonNegative(f, n - 1, m);
    }
  }

  // What a thread and a channel still have before them.
  function ThreadLeft(g: Net, s: State): (nat, nat) -> int
    requires Shape(g, s)
  {
    (i: nat, t: nat) => if i < g.nodes && t < g.threads then 2 * Rounds(g) - Key(s.actors[i][t]) else 0
  }

  function ChannelLeft(g: Net, s: State): (nat, nat) -> int
    requires Shape(g, s)
  {
    (i: nat, j: nat) => if Uses(g, i, j) then 2 * Rounds(g) - s.chans[i][j].sent - s.chans[i][j].rcvd else 0
  }

  function Budget(g: Net, s: State): int
    requires Shape(g, s)
  {
    Total(ThreadLeft(g, s), g.nodes, g.threads) + Total(ChannelLeft(g, s), g.nodes, g.nodes)
  }

  lemma BudgetNonNegative(g: Net, data: seq<Bytes>, s: State)
    requires Inv(g, data, s)
    ensures Budget(g, s) >= 0
  {
    hide SocketFor, Rounds, Chunk, Limit, Total;
    forall i: nat, t: nat | i < g.nodes && t < g.threads
      ensures ThreadLeft(g, s)(i, t) >= 0
    {
      assert ActorOk(g, s.actors[i][t]);
    }
    forall i: nat, j: nat | i < g.nodes && j < g.nodes
      ensures ChannelLeft(g, s)(i, j) >= 0
    {
      if Uses(g, i, j) {
        assert ChannelOk(g, data[i], Writer(g, s, i, j), Reader(g, s, i, j), s.chans[i][j]);
        assert ActorOk(g, Writer(g, s, i, j)) && ActorOk(g, Reader(g, s, i, j));
      }
    }
    TotalNonNegative(ThreadLeft(g, s), g.nodes, g.threads);
    TotalNonNegative(ChannelLeft(g, s), g.nodes, g.nodes);
  }

  lemma ChannelStepCounts(g: Net, s: State, i: nat, j: nat, c: Channel)
    requires Shape(g, s) && Uses(g, i, j) && c.sent + c.rcvd == s.chans[i][j].sent + s.chans[i][j].rcvd + 1
    ensures Shape(g, WithChan(g, s, i, j, c)) && Budget(g, WithChan(g, s, i, j, c)) < Budget(g, s)
  {
    hide Rounds, Total;
    var s' := WithChan(g, s, i, j, c);
    TotalDrops(ThreadLeft(g, s), ThreadLeft(g, s'), g.nodes, g.threads, g.nodes, 0);
    TotalDrops(ChannelLeft(g, s), ChannelLeft(g, s'), g.nodes, g.nodes, i, j);
  }

  lemma ThreadStepCounts(g: Net, s: State, i: nat, t: nat, a: Actor)
    requires Shape(g, s) && i < g.nodes && t < g.threads && Key(a) == Key(s.actors[i][t]) + 1
    ensures Shape(g, WithActor(g, s, i, t, a)) && Budget(g, WithActor(g, s, i, t, a)) < Budget(g, s)
  {
    hide Rounds, Total;
    var s' := WithActor(g, s, i, t, a);
    TotalDrops(ThreadLeft(g, s), ThreadLeft(g, s'), g.nodes, g.threads, i, t);
    TotalDrops(ChannelLeft(g, s), ChannelLeft(g, s'), g.nodes, g.nodes, g.nodes, 0);
  }

  /** Every action uses up a budget that is never negative. */
  lemma EveryActionCounts(g: Net, data: seq<Bytes>, s: State, s': State)
    requires Inv(g, data, s) && Next(g, data, s, s')
    ensures Inv(g, data, s') && 0 <= Budget(g, s') < Budget(g, s)
  {
    hide ChannelOk, ActorOk, Budget, Rounds, SocketFor, Chunk;
    NextKeepsInv(g, data, s, s');
    BudgetNonNegative(g, data, s');
    if i: nat, j: nat :| CanWrite(g, s, i, j) && s' == Write(g, data, s, i, j) {
      ChannelStepCounts(g, s, i, j, s'.chans[i][j]);
    } else if i: nat, j: nat :| CanRead(g, s, i, j) && s' == Read(g, s, i, j) {
      ChannelStepCounts(g, s, i, j, s'.chans[i][j]);
    } else if i: nat, t: nat :| i < g.nodes && t < g.threads && CanEndWrite(g, s, i, t) && s' == EndWrite(g, s, i, t) {
      ThreadStepCounts(g, s, i, t, s'.actors[i][t]);
    } else {
      var i: nat, t: nat :| i < g.nodes && t < g.threads && CanEndRead(g, s, i, t) && s' == EndRead(g, s, i, t);
      ThreadStepCounts(g, s, i, t, s'.actors[i][t]);
    }
  }

  lemma Step(g: Net, data: seq<Bytes>, s: State) returns (s': State)
    requires Valid(g) && Shape(g, s) && |data| == g.nodes && CanMove(g, s)
    ensures Next(g, data, s, s')
  {
    hide CanWrite, CanRead, CanEndWrite, CanEndRead, Write, Read, EndWrite, EndRead, Shape;
    if i: nat, j: nat :| CanWrite(g, s, i, j) {
      s' := Write(g, data, s, i, j);
    } else if i: nat, j: nat :| CanRead(g, s, i, j) {
      s' := Read(g, s, i, j);
    } else if i: nat, t: nat :| i < g.nodes && t < g.threads && CanEndWrite(g, s, i, t) {
      s' := EndWrite(g, s, i, t);
    } else {
      var i: nat, t: nat :| i < g.nodes && t < g.threads && CanEndRead(g, s, i, t);
      s' := EndRead(g, s, i, t);
    }
  }

  lemma InvShape(g: Net, data: seq<Bytes>, s: State)
    requires Inv(g, data, s)
    ensures Valid(g) && Shape(g, s) && |data| == g.nodes
  {
  }

  lemma Extends(g: Net, data: seq<Bytes>, run: seq<State>, s': State)
    requires Execution(g, data, run) && Shape(g, run[|run| - 1]) && Next(g, data, run[|run| - 1], s')
    ensures Execution(g, data, run + [s'])
  {
    hide Next, Shape, Init;
  }

  // A run can be continued until all loops are over.
  lemma {:induction false} Completed(g: Net, data: seq<Bytes>, run: seq<State>) returns (whole: seq<State>)
    requires Execution(g, data, run)
    ensures Execution(g, data, whole) && Shape(g, whole[|whole| - 1]) && Done(g, whole[|whole| - 1])
    decreases if |run| > 0 && Shape(g, run[|run| - 1]) then Budget(g, run[|run| - 1]) else 0
  {
    hide Inv, Budget, CanMove, Done, Next, Shape, Init;
    var n := |run| - 1;
    var s := run[n];
    Reachable(g, data, run, n);
    InvShape(g, data, s);
    if Done(g, s) {
      whole := run;
    } else {
      NoDeadlock(g, data, run, n);
      var s' := Step(g, data, s);
      EveryActionCounts(g, data, s, s');
      InvShape(g, data, s');
      BudgetNonNegative(g, data, s);
      Extends(g, data, run, s');
      whole := Completed(g, data, run + [s']);
    }
  }

  /** A complete run of the exchange exists, whatever is sent. */
  lemma CompleteRunExists(g: Net, data: seq<Bytes>) returns (run: seq<State>)
    requires Valid(g) && |data| == g.nodes
    ensures Execution(g, data, run) && Shape(g, run[|run| - 1]) && Done(g, run[|run| - 1])
  {
    var s := State(seq(g.nodes, _ => seq(g.threads, _ => Actor(0, false))),
                   seq(g.nodes, _ => seq(g.nodes, _ => Channel(0, 0, [], []))));
    assert Init(g, s);
    hide Init, Done;
    run := Completed(g, data, [s]);
  }

  // ---------------------------------------------------------------------------
  // Delivery
  // ---------------------------------------------------------------------------

  /** When all loops are over, everything a node had to send has arrived complete and in
      order, and nothing is left in any channel. */
  lemma AllDelivered(g: Net, data: seq<Bytes>, run: seq<State>, k: nat, i: nat, j: nat)
    requires Execution(g, data, run) && k < |run| && Shape(g, run[k]) && Done(g, run[k])
    requires Uses(g, i, j) && |data[i]| == g.size
    ensures run[k].chans[i][j].got == data[i] && run[k].chans[i][j].queue == []
  {
    var s := run[k];
    Reachable(g, data, run, k);
    hide Execution, Chunk;
    var w, r := Writer(g, s, i, j), Reader(g, s, i, j);
    assert ChannelOk(g, data[i], w, r, s.chans[i][j]);
    assert ActorOk(g, w) && ActorOk(g, r);
    RoundsCover(g);
  }

  /** There are just as many rounds as it takes. */
  lemma RoundsCover(g: Net)
    ensures Limit(Rounds(g), g.size) == g.size
    ensures Rounds(g) * CHUNK >= g.size && forall k: nat :: k * CHUNK >= g.size ==> Rounds(g) <= k
  {
  }

  // ---------------------------------------------------------------------------
  // Packing
  // ---------------------------------------------------------------------------

  /** Slice `index` of a buffer of w-byte slices. */
  function Slice(buf: Bytes, index: nat, w: nat): Bytes {
    if (index + 1) * w <= |buf| then
      SliceStart(index, w);
      buf[index * w..(index + 1) * w]
    else []
  }

  lemma SliceStart(index: nat, w: nat)
    ensures index * w <= (index + 1) * w == index * w + w
  {
  }

  lemma SlicesOrdered(i: nat, j: nat, w: nat)
    requires i < j
    ensures (i + 1) * w <= j * w
  {
    assert (i + 1) * w + (j - i - 1) * w == j * w;
    ProductMonotone(0, j - i - 1, w);
  }

  // memcpy of x over slice `index`.
  function SetSlice(buf: Bytes, n: nat, index: nat, w: nat, x: Bytes): (r: Bytes)
    requires |buf| == n * w && index < n && |x| == w
    ensures |r| == n * w
  {
    SliceStart(index, w);
    SlicesOrdered(index, n, w);
    buf[..index * w] + x + buf[(index + 1) * w..]
  }

  lemma SetThenGet(buf: Bytes, n: nat, index: nat, w: nat, x: Bytes, other: nat)
    requires |buf| == n * w && index < n && |x| == w && other < n
    ensures Slice(SetSlice(buf, n, index, w, x), other, w) == if other == index then x else Slice(buf, other, w)
  {
    SliceStart(index, w);
    SliceStart(other, w);
    SlicesOrdered(index, n, w);
    SlicesOrdered(other, n, w);
    var r, lo, hi := SetSlice(buf, n, index, w, x), index * w, (index + 1) * w;
    if other < index {
      SlicesOrdered(other, index, w);
      assert r[..lo] == buf[..lo];
      SubRange(r, buf, 0, lo, other * w, (other + 1) * w);
    } else if other > index {
      SlicesOrdered(index, other, w);
      assert r[hi..] == buf[hi..];
      SubRange(r, buf, hi, n * w, other * w, (other + 1) * w);
    }
  }

  lemma SubRange(r: Bytes, buf: Bytes, lo: nat, hi: nat, a: nat, b: nat)
    requires |r| == |buf| && lo <= a <= b <= hi <= |buf| && r[lo..hi] == buf[lo..hi]
    ensures r[a..b] == buf[a..b]
  {
    forall q | a <= q < b
      ensures r[q] == buf[q]
    {
      assert r[lo..hi][q - lo] == buf[lo..hi][q - lo];
    }
  }

  predicate RowsOk(rows: seq<Bytes>, n: nat, w: nat) {
    forall b :: 0 <= b < |rows| ==> |rows[b]| == n * w
  }

  /** Packs slice `index` of every row into one send buffer. */
  method Pack(rows: seq<Bytes>, n: nat, index: nat, w: nat) returns (buf: Bytes)
    requires RowsOk(rows, n, w) && index < n
    ensures IsPacked(rows, index, w, buf)
  {
    buf := [];
    for b := 0 to |rows|
      invariant |buf| == b * w
      invariant forall c :: 0 <= c < b ==> Slice(buf, c, w) == Slice(rows[c], index, w)
    {
      SlicesOrdered(index, n, w);
      var x := Slice(rows[b], index, w);
      SliceStart(index, w);
      SliceStart(b, w);
      forall c | 0 <= c <= b
        ensures Slice(buf + x, c, w) == Slice(rows[c], index, w)
      {
        AppendSlice(buf, x, b, w, c);
      }
      buf := buf + x;
    }
  }

  lemma AppendSlice(buf: Bytes, x: Bytes, b: nat, w: nat, c: nat)
    requires |buf| == b * w && |x| == w && c <= b
    ensures Slice(buf + x, c, w) == if c == b then x else Slice(buf, c, w)
  {
    SliceStart(b, w);
    SliceStart(c, w);
    if c < b {
      SlicesOrdered(c, b, w);
      assert (buf + x)[c * w..(c + 1) * w] == buf[c * w..(c + 1) * w];
    }
  }

  ghost predicate IsPacked(rows: seq<Bytes>, index: nat, w: nat, buf: Bytes) {
    |buf| == |rows| * w && forall b :: 0 <= b < |rows| ==> Slice(buf, b, w) == Slice(rows[b], index, w)
  }

  /** Copies a received buffer into slice `index` of every row and leaves the others alone. */
  method Unpack(rows: seq<Bytes>, n: nat, index: nat, w: nat, buf: Bytes) returns (out: seq<Bytes>)
    requires RowsOk(rows, n, w) && index < n && |buf| == |rows| * w
    ensures |out| == |rows| && RowsOk(out, n, w)
    ensures forall b, c :: 0 <= b < |rows| && 0 <= c < n ==>
              Slice(out[b], c, w) == if c == index then Slice(buf, b, w) else Slice(rows[b], c, w)
  {
    hide Slice;
    out := rows;
    for b := 0 to |rows|
      invariant |out| == |rows| && RowsOk(out, n, w)
      invariant forall d :: b <= d < |rows| ==> out[d] == rows[d]
      invariant forall d, c :: 0 <= d < b && 0 <= c < n ==>
                  Slice(out[d], c, w) == if c == index then Slice(buf, d, w) else Slice(rows[d], c, w)
    {
      SliceLength(buf, b, |rows|, w);
      var x := Slice(buf, b, w);
      var row := SetSlice(out[b], n, index, w, x);
      forall c | 0 <= c < n
        ensures Slice(row, c, w) == if c == index then x else Slice(rows[b], c, w)
      {
        SetThenGet(rows[b], n, index, w, x, c);
      }
      out := out[b := row];
    }
  }

  lemma SliceLength(buf: Bytes, b: nat, k: nat, w: nat)
    requires |buf| == k * w && b < k
    ensures |Slice(buf, b, w)| == w
  {
    SlicesOrdered(b, k, w);
    SliceStart(b, w);
  }

  // Own slices as before, the slices of every other node from what it sent.
  ghost predicate IsUnpacked(rows: seq<Bytes>, n: nat, me: nat, w: nat, bufs: seq<Bytes>, out: seq<Bytes>) {
    && |bufs| == n && |out| == |rows|
    && (forall b :: 0 <= b < |rows| ==> Slice(out[b], me, w) == Slice(rows[b], me, w))
    && (forall b, c :: 0 <= b < |rows| && 0 <= c < n && c != me ==> Slice(out[b], c, w) == Slice(bufs[c], b, w))
  }

  /** Unpacks what came in over every socket of node `me`; `bufs[p]` came from node p. */
  method UnpackAll(rows: seq<Bytes>, n: nat, me: nat, w: nat, bufs: seq<Bytes>) returns (out: seq<Bytes>)
    requires RowsOk(rows, n, w) && me < n == |bufs|
    requires forall p :: 0 <= p < n && p != me ==> |bufs[p]| == |rows| * w
    ensures |out| == |rows| && RowsOk(out, n, w)
    ensures IsUnpacked(rows, n, me, w, bufs, out)
  {
    hide Slice;
    out := rows;
    for socket := 0 to n - 1
      invariant |out| == |rows| && RowsOk(out, n, w)
      invariant forall b, c :: 0 <= b < |rows| && 0 <= c < n && c < PeerAt(me, socket) && c != me ==>
                  Slice(out[b], c, w) == Slice(bufs[c], b, w)
      invariant forall b, c :: 0 <= b < |rows| && 0 <= c < n && (c >= PeerAt(me, socket) || c == me) ==>
                  Slice(out[b], c, w) == Slice(rows[b], c, w)
    {
      var sliceIndex := PeerAt(me, socket);
      out := Unpack(out, n, sliceIndex, w, bufs[sliceIndex]);
    }
  }

  /** With the group being all nodes and rows of n whole slices: once the exchange is over
      and everything is unpacked, row b of every receiving node holds in slice c what node c
      held there. */
  lemma ExchangeGathersSlices(g: Net, before: seq<seq<Bytes>>, data: seq<Bytes>, run: seq<State>, k: nat,
                              w: nat, rows: nat, me: nat, bufs: seq<Bytes>, after: seq<Bytes>)
    requires Execution(g, data, run) && k < |run| && Shape(g, run[k]) && Done(g, run[k])
    requires (g.toRoot ==> me == 0) && me < g.nodes == |before| == |data| && g.size == rows * w
    requires forall p :: 0 <= p < g.nodes ==> |before[p]| == rows && IsPacked(before[p], p, w, data[p])
    requires |bufs| == g.nodes && forall p :: 0 <= p < g.nodes && p != me ==> bufs[p] == run[k].chans[p][me].got
    requires IsUnpacked(before[me], g.nodes, me, w, bufs, after)
    ensures forall b, c :: 0 <= b < rows && 0 <= c < g.nodes ==> Slice(after[b], c, w) == Slice(before[c][b], c, w)
  {
    hide Slice, Execution, Done;
    forall b, c | 0 <= b < rows && 0 <= c < g.nodes
      ensures Slice(after[b], c, w) == Slice(before[c][b], c, w)
    {
      if c != me {
        AllDelivered(g, data, run, k, c, me);
        assert IsPacked(before[c], c, w, data[c]);
      }
    }
  }

  // ---------------------------------------------------------------------------
  // The exchange row by row
  // ---------------------------------------------------------------------------

  /** One row of the all-to-all exchange at node `me`: over every socket comes the slice of the
      node behind it and is stored in place. `rows[p]` is the row of node p. */
  method ReceiveRow(rows: seq<Bytes>, n: nat, me: nat, w: nat) returns (row: Bytes)
    requires me < n == |rows| && RowsOk(rows, n, w)
    ensures |row| == n * w && forall c :: 0 <= c < n ==> Slice(row, c, w) == Slice(rows[c], c, w)
  {
    hide Slice;
    row := rows[me];
    for socket := 0 to n - 1
      invariant |row| == n * w
      invariant forall c :: 0 <= c < n ==>
                  Slice(row, c, w) == Slice(if c < PeerAt(me, socket) then rows[c] else rows[me], c, w)
    {
      var sliceIndex := PeerAt(me, socket);
      SliceLength(rows[sliceIndex], sliceIndex, n, w);
      ghost var before := row;
      var x := Slice(rows[sliceIndex], sliceIndex, w);
      row := SetSlice(row, n, sliceIndex, w, x);
      forall c | 0 <= c < n
        ensures Slice(row, c, w) == if c == sliceIndex then x else Slice(before, c, w)
      {
        SetThenGet(before, n, sliceIndex, w, x, c);
      }
    }
  }

  /** All rows one after the other. */
  method ExchangeRowByRow(before: seq<seq<Bytes>>, n: nat, rows: nat, me: nat, w: nat) returns (out: seq<Bytes>)
    requires me < n == |before|
    requires forall p :: 0 <= p < n ==> |before[p]| == rows && RowsOk(before[p], n, w)
    ensures |out| == rows && RowsOk(out, n, w)
    ensures forall b, c :: 0 <= b < rows && 0 <= c < n ==> Slice(out[b], c, w) == Slice(before[c][b], c, w)
  {
    hide Slice;
    out := [];
    for b := 0 to rows
      invariant |out| == b && RowsOk(out, n, w)
      invariant forall d, c :: 0 <= d < b && 0 <= c < n ==> Slice(out[d], c, w) == Slice(before[c][d], c, w)
    {
      var row := ReceiveRow(seq(n, p requires 0 <= p < n => before[p][b]), n, me, w);
      out := out + [row];
    }
  }

  lemma SameSlices(a: Bytes, b: Bytes, n: nat, w: nat)
    requires |a| == |b| == n * w && forall c :: 0 <= c < n ==> Slice(a, c, w) == Slice(b, c, w)
    ensures a == b
  {
    forall q | 0 <= q < n * w
      ensures a[q] == b[q]
    {
      ByteInSlice(n, w, q);
      var c := q / w;
      SliceStart(c, w);
      SlicesOrdered(c, n, w);
      assert Slice(a, c, w)[q - c * w] == a[q] && Slice(b, c, w)[q - c * w] == b[q];
    }
  }

  lemma PositiveFactor(n: nat, w: nat)
    ensures n * w > 0 ==> w > 0
  {
  }

  lemma ByteInSlice(n: nat, w: nat, q: nat)
    requires q < n * w
    ensures w > 0 && q / w < n && q / w * w <= q < (q / w + 1) * w
  {
    PositiveFactor(n, w);
    assert q == q / w * w + q % w;
    NextMultiple(q / w, w);
    if q / w >= n {
      ProductMonotone(n, q / w, w);
    }
  }

  /** The batched, chunked exchange leaves exactly what the exchange row by row leaves. */
  lemma ExchangesAgree(g: Net, before: seq<seq<Bytes>>, data: seq<Bytes>, run: seq<State>, k: nat,
                       w: nat, rows: nat, me: nat, bufs: seq<Bytes>, after: seq<Bytes>, rowByRow: seq<Bytes>)
    requires Execution(g, data, run) && k < |run| && Shape(g, run[k]) && Done(g, run[k])
    requires (g.toRoot ==> me == 0) && me < g.nodes == |before| == |data| && g.size == rows * w
    requires forall p :: 0 <= p < g.nodes ==> |before[p]| == rows && IsPacked(before[p], p, w, data[p])
    requires |bufs| == g.nodes && forall p :: 0 <= p < g.nodes && p != me ==> bufs[p] == run[k].chans[p][me].got
    requires IsUnpacked(before[me], g.nodes, me, w, bufs, after) && RowsOk(after, g.nodes, w)
    requires |rowByRow| == rows && RowsOk(rowByRow, g.nodes, w)
    requires forall b, c :: 0 <= b < rows && 0 <= c < g.nodes ==> Slice(rowByRow[b], c, w) == Slice(before[c][b], c, w)
    ensures after == rowByRow
  {
    hide Slice, Execution, Done, Shape, IsPacked;
    ExchangeGathersSlices(g, before, data, run, k, w, rows, me, bufs, after);
    forall b | 0 <= b < rows
      ensures after[b] == rowByRow[b]
    {
      forall c | 0 <= c < g.nodes
        ensures Slice(after[b], c, w) == Slice(rowByRow[b], c, w)
      {
        assert Slice(after[b], c, w) == Slice(before[c][b], c, w);
      }
      SameSlices(after[b], rowByRow[b], g.nodes, w);
    }
  }
}
