/** Decoding several requests in rounds: each round serves up to maxActive live requests, chosen
    in round-robin order. */
module ContinuousBatching {
  import opened Arithmetic
  import opened Common

  datatype Req = Req(pos: nat, maxPos: nat, token: int, finished: bool, output: seq<int>)

  /** `choose(round, r, request)` is the token the model and the sampler produce for request r;
      it may depend on anything, so it stands for every behaviour of the model. */
  datatype Model = Model(choose: (nat, nat, Req) -> int, isEos: int -> bool)

  predicate Live(q: Req) {
    !q.finished && q.pos < q.maxPos
  }

  // One more token of a request.
  function Advance(M: Model, q: Req, token: int): Req {
    Req(q.pos + 1, q.maxPos, token, q.finished || M.isEos(token) || q.pos + 1 >= q.maxPos, q.output + [token])
  }

  // ---------------------------------------------------------------------------
  // Setting up
  // ---------------------------------------------------------------------------

  // Position limit of a request; newTokens == 0 means no limit of its own.
  function MaxPos(seqLen: nat, steps: nat, promptLength: nat, newTokens: nat): nat {
    var limit := Min(seqLen, steps);
    if newTokens > 0 then Min(limit, promptLength + newTokens) else limit
  }

  /** A request as decoding finds it: the prompt but for its last token is prefilled. Refused
      prompts (empty, or longer than the context or the step limit) give nothing. */
  datatype Admission = Admitted(req: Req) | Refused

  function Admit(prompt: seq<int>, seqLen: nat, steps: nat, newTokens: nat): (a: Admission)
    ensures a.Admitted? <==> 1 <= |prompt| <= Min(seqLen, steps)
    ensures a.Admitted? ==> Live(a.req) && a.req.output == []
    ensures a.Admitted? ==> a.req.pos == |prompt| - 1 && a.req.token == prompt[|prompt| - 1]
    ensures a.Admitted? ==>
              var limits := {seqLen, steps} + if newTokens > 0 then {|prompt| + newTokens} else {};
              a.req.maxPos in limits && forall limit :: limit in limits ==> a.req.maxPos <= limit
  {
    var n := |prompt|;
    if n < 1 || n > seqLen || n > steps then Refused
    else Admitted(Req(n - 1, MaxPos(seqLen, steps, n, newTokens), prompt[n - 1], false, []))
  }

  // ---------------------------------------------------------------------------
  // A round
  // ---------------------------------------------------------------------------

  datatype State = State(reqs: seq<Req>, cursor: nat)

  predicate Valid(s: State) {
    s.reqs != [] && s.cursor < |s.reqs|
  }

  // Index of the request at distance i from the cursor, wrapping around once.
  function At(s: State, i: nat): (r: nat)
    requires Valid(s) && i <= |s.reqs|
    ensures r < |s.reqs|
  {
    if s.cursor + i < |s.reqs| then s.cursor + i else s.cursor + i - |s.reqs|
  }

  // The loops compute it as a remainder.
  lemma AtIsRemainder(s: State, i: nat)
    requires Valid(s) && i <= |s.reqs|
    ensures (s.cursor + i) % |s.reqs| == At(s, i)
  {
    Wrap(s.cursor + i, |s.reqs|);
  }

  lemma Wrap(x: nat, n: nat)
    requires x < 2 * n
    ensures x % n == if x < n then x else x - n
  {
    var q := if x < n then 0 else 1;
    QuotientUnique(x, n, q, x - q * n);
    assert x == x / n * n + x % n;
  }

  function Distance(s: State, r: nat): (i: nat)
    requires Valid(s) && r < |s.reqs|
    ensures i < |s.reqs| && At(s, i) == r
  {
    if r >= s.cursor then r - s.cursor else r + |s.reqs| - s.cursor
  }

  /** Live requests at distances below i. */
  function CountLive(s: State, i: nat): (n: nat)
    requires Valid(s) && i <= |s.reqs|
    ensures n <= i
  {
    if i == 0 then 0 else CountLive(s, i - 1) + if Live(s.reqs[At(s, i - 1)]) then 1 else 0
  }

  // Distances of the first m live requests among those below i.
  function Chosen(s: State, m: nat, i: nat): (c: seq<nat>)
    requires Valid(s) && i <= |s.reqs|
    ensures |c| <= m && forall j :: 0 <= j < |c| ==> c[j] < i
  {
    if i == 0 then []
    else
      var c := Chosen(s, m, i - 1);
      if |c| < m && Live(s.reqs[At(s, i - 1)]) then c + [i - 1] else c
  }

  function Picked(s: State, m: nat): (p: seq<nat>)
    requires Valid(s)
    ensures forall j :: 0 <= j < |p| ==> p[j] < |s.reqs|
  {
    var c := Chosen(s, m, |s.reqs|);
    seq(|c|, j requires 0 <= j < |c| => At(s, c[j]))
  }

  lemma {:induction false} ChosenFacts(s: State, m: nat, i: nat)
    requires Valid(s) && i <= |s.reqs|
    ensures var c := Chosen(s, m, i);
            && |c| == Min(m, CountLive(s, i))
            && (forall j, k :: 0 <= j < k < |c| ==> c[j] < c[k])
            && (forall j :: 0 <= j < |c| ==> Live(s.reqs[At(s, c[j])]))
  {
    hide At, Live;
    if i > 0 {
      ChosenFacts(s, m, i - 1);
    }
  }

  // Nobody with fewer than m live requests before it is passed over.
  lemma {:induction false} ChosenComplete(s: State, m: nat, i: nat, d: nat)
    requires Valid(s) && d < i <= |s.reqs| && Live(s.reqs[At(s, d)]) && CountLive(s, d) < m
    ensures d in Chosen(s, m, i)
  {
    hide At, Live;
    ChosenFacts(s, m, i - 1);
    if d < i - 1 {
      ChosenComplete(s, m, i - 1, d);
    } else {
      var c := Chosen(s, m, i);
      assert c[|c| - 1] == d;
    }
  }

  lemma DistanceUnique(s: State, i: nat, j: nat)
    requires Valid(s) && i < |s.reqs| && j < |s.reqs| && At(s, i) == At(s, j)
    ensures i == j
  {
  }

  /** The picks are distinct live requests; as many as there are live ones, up to m. */
  lemma PicksAreDistinctAndLive(s: State, m: nat)
    requires Valid(s)
    ensures var p := Picked(s, m);
            && |p| == Min(m, CountLive(s, |s.reqs|))
            && (forall j :: 0 <= j < |p| ==> Live(s.reqs[p[j]]))
            && (forall j, k :: 0 <= j < k < |p| ==> p[j] != p[k])
  {
    var c, p := Chosen(s, m, |s.reqs|), Picked(s, m);
    ChosenFacts(s, m, |s.reqs|);
    hide Live, CountLive;
    forall j, k | 0 <= j < k < |p|
      ensures p[j] != p[k]
    {
      if p[j] == p[k] {
        DistanceUnique(s, c[j], c[k]);
      }
    }
  }

  // The request after request r.
  function Next(r: nat, n: nat): (q: nat)
    requires r < n
    ensures q < n && q == (r + 1) % n
  {
    Wrap(r + 1, n);
    if r + 1 < n then r + 1 else 0
  }

  // All requests after one round, and the cursor behind the last pick.
  function AfterRound(M: Model, s: State, m: nat, round: nat): (s': State)
    requires Valid(s)
    ensures Valid(s') && |s'.reqs| == |s.reqs|
  {
    var p := Picked(s, m);
    State(seq(|s.reqs|, r requires 0 <= r < |s.reqs| =>
            if r in p then Advance(M, s.reqs[r], M.choose(round, r, s.reqs[r])) else s.reqs[r]),
          if p == [] then s.cursor else Next(p[|p| - 1], |s.reqs|))
  }

  function AfterRounds(M: Model, s: State, m: nat, round: nat, k: nat): (s': State)
    requires Valid(s)
    ensures Valid(s') && |s'.reqs| == |s.reqs|
  {
    if k == 0 then s else AfterRound(M, AfterRounds(M, s, m, round, k - 1), m, round + k - 1)
  }

  // ---------------------------------------------------------------------------
  // Fairness
  // ---------------------------------------------------------------------------

  /** Live requests that come before request r in the round-robin order. */
  function Rank(s: State, r: nat): nat
    requires Valid(s) && r < |s.reqs|
  {
    CountLive(s, Distance(s, r))
  }

  lemma {:induction false} CountMonotone(s: State, i: nat, j: nat)
    requires Valid(s) && i <= j <= |s.reqs|
    ensures CountLive(s, i) <= CountLive(s, j)
    decreases j - i
  {
    if i < j {
      CountMonotone(s, i, j - 1);
    }
  }

  /** A live request is picked exactly when fewer than m live requests are before it. */
  lemma PickedExactlyWhen(s: State, m: nat, r: nat)
    requires Valid(s) && r < |s.reqs| && Live(s.reqs[r])
    ensures r in Picked(s, m) <==> Rank(s, r) < m
  {
    var d, c, p := Distance(s, r), Chosen(s, m, |s.reqs|), Picked(s, m);
    ChosenFacts(s, m, |s.reqs|);
    hide Live;
    if Rank(s, r) < m {
      ChosenComplete(s, m, |s.reqs|, d);
      var j :| 0 <= j < |c| && c[j] == d;
      assert p[j] == r;
    } else if r in p {
      var j :| 0 <= j < |p| && p[j] == r;
      DistanceUnique(s, c[j], d);
      ChosenRank(s, m, |s.reqs|, j);
    }
  }

  // The j-th chosen one has exactly j live requests before it.
  lemma {:induction false} ChosenRank(s: State, m: nat, i: nat, j: nat)
    requires Valid(s) && i <= |s.reqs| && j < |Chosen(s, m, i)|
    ensures CountLive(s, Chosen(s, m, i)[j]) == j
  {
    hide At, Live;
    if i > 0 {
      LengthOfChosen(s, m, i - 1);
      if j < |Chosen(s, m, i - 1)| {
        ChosenRank(s, m, i - 1, j);
      }
    }
  }

  lemma LengthOfChosen(s: State, m: nat, i: nat)
    requires Valid(s) && i <= |s.reqs|
    ensures |Chosen(s, m, i)| == Min(m, CountLive(s, i))
  {
    hide *;
    ChosenFacts(s, m, i);
  }

  // Going on from distance i is counting from a moved cursor; requests only ever stop.
  lemma {:induction false} CountFrom(s: State, s': State, i: nat, k: nat)
    requires Valid(s) && Valid(s') && |s.reqs| == |s'.reqs| && i + k <= |s.reqs| && s'.cursor == At(s, i)
    requires forall r :: 0 <= r < |s.reqs| && Live(s'.reqs[r]) ==> Live(s.reqs[r])
    ensures CountLive(s', k) + CountLive(s, i) <= CountLive(s, i + k)
  {
    hide Live;
    if k > 0 {
      CountFrom(s, s', i, k - 1);
      assert At(s', k - 1) == At(s, i + (k - 1));
    }
  }

  // Passing over request r means picking m requests before it.
  lemma PassedOver(s: State, m: nat, r: nat) returns (last: nat)
    requires Valid(s) && m >= 1 && r < |s.reqs| && Live(s.reqs[r]) && r !in Picked(s, m)
    ensures last < Distance(s, r) && CountLive(s, last + 1) == m
    ensures |Picked(s, m)| == m && Picked(s, m)[m - 1] == At(s, last)
  {
    PickedExactlyWhen(s, m, r);
    var c, d := Chosen(s, m, |s.reqs|), Distance(s, r);
    ChosenFacts(s, m, |s.reqs|);
    CountMonotone(s, d, |s.reqs|);
    hide Live;
    last := c[m - 1];
    ChosenRank(s, m, |s.reqs|, m - 1);
    assert Live(s.reqs[At(s, last)]);
    if d <= last {
      CountMonotone(s, d, last);
    }
  }

  /** Each round that passes over a live request moves it up by at least m places. */
  lemma RankDrops(M: Model, s: State, m: nat, round: nat, r: nat)
    requires Valid(s) && m >= 1 && r < |s.reqs| && Live(s.reqs[r]) && r !in Picked(s, m)
    ensures var s' := AfterRound(M, s, m, round);
            s'.reqs[r] == s.reqs[r] && Rank(s', r) + m <= Rank(s, r)
  {
    hide CountLive, Chosen, Picked, Live;
    var last := PassedOver(s, m, r);
    var s' := AfterRound(M, s, m, round);
    assert s'.cursor == At(s, last + 1);
    OnlyStops(M, s, m, round);
    hide AfterRound;
    var d := Distance(s, r);
    var k := d - (last + 1);
    assert At(s', k) == At(s, d);
    DistanceUnique(s', k, Distance(s', r));
    CountFrom(s, s', last + 1, k);
  }

  lemma OnlyStops(M: Model, s: State, m: nat, round: nat)
    requires Valid(s)
    ensures forall r :: 0 <= r < |s.reqs| && Live(AfterRound(M, s, m, round).reqs[r]) ==> Live(s.reqs[r])
  {
    PicksAreDistinctAndLive(s, m);
  }

  /** A live request is served within ceil(live / m) rounds, whatever the model produces. */
  lemma {:induction false} ServedSoon(M: Model, s: State, m: nat, round: nat, r: nat) returns (k: nat)
    requires Valid(s) && m >= 1 && r < |s.reqs| && Live(s.reqs[r])
    ensures r in Picked(AfterRounds(M, s, m, round, k), m)
    ensures AfterRounds(M, s, m, round, k).reqs[r] == s.reqs[r]
    ensures k * m <= Rank(s, r) < CountLive(s, |s.reqs|)
    decreases Rank(s, r)
  {
    RankBelowLive(s, r);
    hide Live, Picked, Rank, CountLive, AfterRound;
    if r in Picked(s, m) {
      k := 0;
      assert AfterRounds(M, s, m, round, 0) == s;
    } else {
      RankDrops(M, s, m, round, r);
      var s' := AfterRound(M, s, m, round);
      var k' := ServedSoon(M, s', m, round + 1, r);
      k := k' + 1;
      FirstRoundApart(M, s, m, round, k');
      assert k * m == k' * m + m;
    }
  }

  lemma RankBelowLive(s: State, r: nat)
    requires Valid(s) && r < |s.reqs| && Live(s.reqs[r])
    ensures Rank(s, r) < CountLive(s, |s.reqs|)
  {
    CountMonotone(s, Distance(s, r) + 1, |s.reqs|);
  }

  lemma {:induction false} FirstRoundApart(M: Model, s: State, m: nat, round: nat, k: nat)
    requires Valid(s)
    ensures AfterRounds(M, s, m, round, k + 1) == AfterRounds(M, AfterRound(M, s, m, round), m, round + 1, k)
  {
    hide AfterRound;
    if k > 0 {
      FirstRoundApart(M, s, m, round, k - 1);
    } else {
      assert AfterRounds(M, s, m, round, 0) == s;
    }
  }

  // ---------------------------------------------------------------------------
  // One request on its own
  // ---------------------------------------------------------------------------

  function Left(q: Req): nat {
    if Live(q) then q.maxPos - q.pos else 0
  }

  /** Decoding request r alone, to the end. */
  function Solo(M: Model, r: nat, q: Req): (q': Req)
    ensures !Live(q')
    decreases Left(q)
  {
    if Live(q) then Solo(M, r, Advance(M, q, M.choose(0, r, q))) else q
  }

  // What a request produces does not depend on the round it is served in.
  ghost predicate RoundFree(M: Model) {
    forall i, j, r, q :: M.choose(i, r, q) == M.choose(j, r, q)
  }

  lemma AnswersByRequest(answer: (nat, Req) -> int, isEos: int -> bool)
    ensures RoundFree(Model((_: nat, r: nat, q: Req) => answer(r, q), isEos))
  {
  }

  // A request that has not finished can still go on.
  predicate Going(q: Req) {
    q.finished || q.pos < q.maxPos
  }

  /** From q to q' by decoding: the output only grows, positions count it, nothing follows an end
      token, and a request finishes with an end token or at its limit, not otherwise. */
  ghost predicate Decoded(M: Model, q: Req, q': Req) {
    && q.output <= q'.output && q'.maxPos == q.maxPos && q'.pos - q.pos == |q'.output| - |q.output|
    && (forall i :: |q.output| <= i < |q'.output| - 1 ==> !M.isEos(q'.output[i]))
    && (q' == q || (|q'.output| > |q.output|
                    && (q'.finished <==> M.isEos(q'.output[|q'.output| - 1]) || q'.pos >= q'.maxPos)))
  }

  lemma AdvanceDecodes(M: Model, q0: Req, q: Req, token: int)
    requires Decoded(M, q0, q) && Live(q) && !q0.finished
    ensures Decoded(M, q0, Advance(M, q, token))
  {
  }

  // The request as the model is asked for output i: one position further for every token since
  // the start, and the token before it to go on from.
  function Asked(q0: Req, output: seq<int>, i: nat): Req
    requires |q0.output| <= i < |output|
  {
    Req(q0.pos + (i - |q0.output|), q0.maxPos, if i == |q0.output| then q0.token else output[i - 1], false, output[..i])
  }

  /** Every token put out is what the model answers to the token before it, the first one to the
      token the request starts with; and the last one is what it will be asked with next. */
  ghost predicate FedBack(M: Model, r: nat, q0: Req, q: Req) {
    && |q0.output| <= |q.output|
    && q.token == (if |q.output| == |q0.output| then q0.token else q.output[|q.output| - 1])
    && forall i :: |q0.output| <= i < |q.output| ==> Answered(M, r, q0, q.output, i)
  }

  // Output i is what the model answers in some round.
  ghost predicate Answered(M: Model, r: nat, q0: Req, output: seq<int>, i: int)
    requires |q0.output| <= i < |output|
  {
    exists round: nat :: output[i] == M.choose(round, r, Asked(q0, output, i))
  }

  lemma OutputsSoFar(M: Model, r: nat, q0: Req, q: Req)
    requires FedBack(M, r, q0, q)
    ensures |q0.output| <= |q.output|
    ensures forall i :: |q0.output| <= i < |q.output| ==> Answered(M, r, q0, q.output, i)
  {
  }

  lemma LastFedBack(M: Model, r: nat, q0: Req, q: Req)
    requires |q0.output| < |q.output| && q.token == q.output[|q.output| - 1]
    requires forall i :: |q0.output| <= i < |q.output| ==> Answered(M, r, q0, q.output, i)
    ensures FedBack(M, r, q0, q)
  {
    hide Answered;
  }

  lemma AskedEarlier(q0: Req, output: seq<int>, token: int, i: nat)
    requires |q0.output| <= i < |output|
    ensures Asked(q0, output + [token], i) == Asked(q0, output, i)
  {
    assert (output + [token])[..i] == output[..i];
  }

  // A live request is what the model is asked with next.
  lemma AskedNow(M: Model, r: nat, q0: Req, q: Req, token: int)
    requires Decoded(M, q0, q) && FedBack(M, r, q0, q) && Live(q)
    ensures |q0.output| <= |q.output| && Asked(q0, q.output + [token], |q.output|) == q
  {
    assert (q.output + [token])[..|q.output|] == q.output;
  }

  lemma FedBackGrows(M: Model, r: nat, q0: Req, q: Req, round: nat)
    requires FedBack(M, r, q0, q) && Decoded(M, q0, q) && Live(q)
    ensures FedBack(M, r, q0, Advance(M, q, M.choose(round, r, q)))
  {
    hide Asked, Decoded, Live, FedBack;
    var token := M.choose(round, r, q);
    AskedNow(M, r, q0, q, token);
    OutputsSoFar(M, r, q0, q);
    var longer := q.output + [token];
    forall i | |q0.output| <= i < |longer|
      ensures Answered(M, r, q0, longer, i)
    {
      if i == |q.output| {
        assert longer[i] == M.choose(round, r, Asked(q0, longer, i));
      } else {
        AskedEarlier(q0, q.output, token, i);
        assert Answered(M, r, q0, q.output, i);
      }
    }
    LastFedBack(M, r, q0, Advance(M, q, token));
  }

  /** If the answers do not depend on the round, each output token is the answer to the one before. */
  lemma AnswersInOrder(M: Model, r: nat, q0: Req, q: Req, i: nat)
    requires FedBack(M, r, q0, q) && RoundFree(M) && |q0.output| <= i < |q.output|
    ensures q.output[i] == M.choose(0, r, Asked(q0, q.output, i))
  {
    assert Answered(M, r, q0, q.output, i);
    var round: nat :| q.output[i] == M.choose(round, r, Asked(q0, q.output, i));
    assert M.choose(round, r, Asked(q0, q.output, i)) == M.choose(0, r, Asked(q0, q.output, i));
  }

  // ---------------------------------------------------------------------------
  // The decode loop
  // ---------------------------------------------------------------------------

  function Unfinished(reqs: seq<Req>): nat {
    if reqs == [] then 0 else Unfinished(reqs[..|reqs| - 1]) + if reqs[|reqs| - 1].finished then 0 else 1
  }

  lemma {:induction false} OneFinishes(reqs: seq<Req>, r: nat, q: Req)
    requires r < |reqs| && !reqs[r].finished
    ensures Unfinished(reqs[r := q]) == Unfinished(reqs) - if q.finished then 1 else 0
  {
    var n := |reqs| - 1;
    if r < n {
      OneFinishes(reqs[..n], r, q);
      assert reqs[r := q][..n] == reqs[..n][r := q];
    } else {
      assert reqs[r := q][..n] == reqs[..n];
    }
  }

  lemma {:induction false} NoneUnfinished(reqs: seq<Req>, r: nat)
    requires Unfinished(reqs) == 0 && r < |reqs|
    ensures reqs[r].finished
  {
    if r < |reqs| - 1 {
      NoneUnfinished(reqs[..|reqs| - 1], r);
    }
  }

  lemma {:induction false} AllUnfinished(reqs: seq<Req>)
    requires forall r :: 0 <= r < |reqs| ==> !reqs[r].finished
    ensures Unfinished(reqs) == |reqs|
  {
    if reqs != [] {
      AllUnfinished(reqs[..|reqs| - 1]);
    }
  }

  function TotalLeft(reqs: seq<Req>): nat {
    if reqs == [] then 0 else TotalLeft(reqs[..|reqs| - 1]) + Left(reqs[|reqs| - 1])
  }

  lemma {:induction false} LeftDrops(before: seq<Req>, after: seq<Req>, r: nat)
    requires |before| == |after| && forall i :: 0 <= i < |before| ==> Left(after[i]) <= Left(before[i])
    ensures TotalLeft(after) <= TotalLeft(before)
    ensures r < |before| && Left(after[r]) < Left(before[r]) ==> TotalLeft(after) < TotalLeft(before)
    decreases |before|
  {
    hide Left;
    if before != [] {
      LeftDrops(before[..|before| - 1], after[..|after| - 1], r);
    }
  }

  lemma RoundProgress(M: Model, s: State, m: nat, round: nat)
    requires Valid(s) && Picked(s, m) != []
    ensures TotalLeft(AfterRound(M, s, m, round).reqs) < TotalLeft(s.reqs)
  {
    hide Picked, CountLive, TotalLeft;
    PicksAreDistinctAndLive(s, m);
    var r := Picked(s, m)[0];
    assert r in Picked(s, m);
    var s' := AfterRound(M, s, m, round);
    forall i | 0 <= i < |s.reqs|
      ensures Left(s'.reqs[i]) <= Left(s.reqs[i])
    {
      AdvanceLeaves(M, s.reqs[i], M.choose(round, i, s.reqs[i]));
    }
    AdvanceLeaves(M, s.reqs[r], M.choose(round, r, s.reqs[r]));
    hide AfterRound, Left;
    LeftDrops(s.reqs, s'.reqs, r);
  }

  lemma AdvanceLeaves(M: Model, q: Req, token: int)
    ensures Left(Advance(M, q, token)) <= Left(q)
    ensures Live(q) ==> Left(Advance(M, q, token)) < Left(q)
  {
  }

  lemma NobodyPicked(s: State, m: nat, r: nat)
    requires Valid(s) && m >= 1 && Picked(s, m) == [] && r < |s.reqs|
    ensures !Live(s.reqs[r])
  {
    PicksAreDistinctAndLive(s, m);
    CountMonotone(s, Distance(s, r) + 1, |s.reqs|);
  }

  // What holds of every request between rounds.
  ghost predicate RequestOk(M: Model, r: nat, q0: Req, q: Req) {
    && Going(q) && Decoded(M, q0, q) && FedBack(M, r, q0, q)
    && (RoundFree(M) ==> Solo(M, r, q) == Solo(M, r, q0))
  }

  lemma RoundKeepsRequests(M: Model, s: State, m: nat, round: nat, r: nat, q0: Req)
    requires Valid(s) && r < |s.reqs| && !q0.finished && RequestOk(M, r, q0, s.reqs[r])
    ensures RequestOk(M, r, q0, AfterRound(M, s, m, round).reqs[r])
  {
    PicksAreDistinctAndLive(s, m);
    hide Picked, Decoded, FedBack;
    if r in Picked(s, m) {
      AdvanceDecodes(M, q0, s.reqs[r], M.choose(round, r, s.reqs[r]));
      FedBackGrows(M, r, q0, s.reqs[r], round);
    }
  }

  /** A round, request by request: a pick gets the model's answer as output and as its next token. */
  lemma RoundSpelledOut(M: Model, s: State, m: nat, round: nat, r: nat)
    requires Valid(s) && r < |s.reqs|
    ensures var q, q' := s.reqs[r], AfterRound(M, s, m, round).reqs[r];
            if r in Picked(s, m) then Served(M, q, q', M.choose(round, r, q)) else q' == q
  {
    PicksAreDistinctAndLive(s, m);
    hide Picked;
  }

  // One token more.
  predicate Served(M: Model, q: Req, q': Req, token: int) {
    && q'.token == token && q'.output == q.output + [token] && q'.pos == q.pos + 1 && q'.maxPos == q.maxPos
    && (q'.finished <==> M.isEos(token) || q'.pos >= q.maxPos)
  }

  // The round when the first i picks have been served.
  ghost function PartlyServed(M: Model, s: State, p: seq<nat>, i: nat, round: nat): seq<Req>
    requires i <= |p|
  {
    seq(|s.reqs|, r requires 0 <= r < |s.reqs| =>
      if r in p[..i] then Advance(M, s.reqs[r], M.choose(round, r, s.reqs[r])) else s.reqs[r])
  }

  lemma NothingServed(M: Model, s: State, p: seq<nat>, round: nat)
    ensures PartlyServed(M, s, p, 0, round) == s.reqs
  {
  }

  lemma ValidCursor(s: State, p: seq<nat>, m: nat)
    requires Valid(s) && p == Picked(s, m) && p != []
    ensures |s.reqs| > 0 && p[|p| - 1] < |s.reqs|
    ensures (p[|p| - 1] + 1) % |s.reqs| == Next(p[|p| - 1], |s.reqs|)
  {
  }

  lemma ServeNext(M: Model, s: State, m: nat, p: seq<nat>, i: nat, round: nat)
    requires Valid(s) && p == Picked(s, m) && i < |p|
    ensures p[i] < |s.reqs| && PartlyServed(M, s, p, i, round)[p[i]] == s.reqs[p[i]] && !s.reqs[p[i]].finished
    ensures PartlyServed(M, s, p, i + 1, round) ==
            PartlyServed(M, s, p, i, round)[p[i] := Advance(M, s.reqs[p[i]], M.choose(round, p[i], s.reqs[p[i]]))]
  {
    PicksAreDistinctAndLive(s, m);
    hide Picked;
    assert p[i] !in p[..i];
    assert p[..i + 1] == p[..i] + [p[i]];
  }

  lemma AllServed(M: Model, s: State, m: nat, p: seq<nat>, round: nat)
    requires Valid(s) && p == Picked(s, m) && p != []
    ensures AfterRound(M, s, m, round) == State(PartlyServed(M, s, p, |p|, round), Next(p[|p| - 1], |s.reqs|))
  {
    assert p[..|p|] == p;
    hide Picked;
  }

  // The decode loop after some rounds.
  ghost predicate Progress(M: Model, start: State, m: nat, rounds: nat, s: State) {
    && |start.reqs| == |s.reqs|
    && (s.reqs != [] ==> Valid(start) && Valid(s) && s == AfterRounds(M, start, m, 0, rounds))
    && forall r: nat :: r < |s.reqs| ==> !start.reqs[r].finished && RequestOk(M, r, start.reqs[r], s.reqs[r])
  }

  lemma ProgressStarts(M: Model, start: State, m: nat)
    requires start.cursor == 0 && forall r :: 0 <= r < |start.reqs| ==> Live(start.reqs[r])
    ensures Progress(M, start, m, 0, start)
  {
  }

  lemma Starts(M: Model, m: nat, start: State)
    requires start.cursor == 0 && forall r :: 0 <= r < |start.reqs| ==> Live(start.reqs[r])
    ensures Unfinished(start.reqs) == |start.reqs| && Progress(M, start, m, 0, start)
  {
    AllUnfinished(start.reqs);
    ProgressStarts(M, start, m);
  }

  lemma StillValid(M: Model, start: State, m: nat, rounds: nat, s: State)
    requires Progress(M, start, m, rounds, s) && Unfinished(s.reqs) > 0
    ensures Valid(s)
  {
  }

  lemma ProgressContinues(M: Model, start: State, m: nat, rounds: nat, s: State)
    requires Progress(M, start, m, rounds, s) && Valid(s)
    ensures Progress(M, start, m, rounds + 1, AfterRound(M, s, m, rounds))
  {
    hide AfterRound, RequestOk;
    assert AfterRounds(M, start, m, 0, rounds + 1) == AfterRound(M, AfterRounds(M, start, m, 0, rounds), m, rounds);
    forall r: nat | r < |s.reqs|
      ensures RequestOk(M, r, start.reqs[r], AfterRound(M, s, m, rounds).reqs[r])
    {
      RoundKeepsRequests(M, s, m, rounds, r, start.reqs[r]);
    }
  }

  lemma ProgressEnds(M: Model, start: State, m: nat, rounds: nat, s: State)
    requires m >= 1 && Progress(M, start, m, rounds, s)
    requires Unfinished(s.reqs) == 0 || (Valid(s) && Picked(s, m) == [])
    ensures |start.reqs| == |s.reqs|
    ensures forall r :: 0 <= r < |s.reqs| ==> s.reqs[r].finished && Decoded(M, start.reqs[r], s.reqs[r])
    ensures forall r: nat :: r < |s.reqs| ==> FedBack(M, r, start.reqs[r], s.reqs[r])
    ensures RoundFree(M) ==> forall r: nat :: r < |s.reqs| ==> s.reqs[r] == Solo(M, r, start.reqs[r])
    ensures s.reqs != [] ==> Valid(start) && s == AfterRounds(M, start, m, 0, rounds)
  {
    forall r: nat | r < |s.reqs|
      ensures s.reqs[r].finished && Decoded(M, start.reqs[r], s.reqs[r]) && FedBack(M, r, start.reqs[r], s.reqs[r])
      ensures RoundFree(M) ==> s.reqs[r] == Solo(M, r, start.reqs[r])
    {
      hide Picked, Decoded, FedBack, RoundFree, Unfinished;
      assert RequestOk(M, r, start.reqs[r], s.reqs[r]);
      if Unfinished(s.reqs) == 0 {
        NoneUnfinished(s.reqs, r);
      } else {
        NobodyPicked(s, m, r);
      }
    }
    hide *;
  }

  class Scheduler {
    const maxActive: nat
    var reqs: array<Req>
    var rrCursor: nat
    var activeCount: nat

    constructor (requests: seq<Req>, maxActive: nat)
      ensures fresh(reqs) && reqs[..] == requests && this.maxActive == maxActive
      ensures rrCursor == 0 && activeCount == |requests|
    {
      this.maxActive := maxActive;
      reqs := new Req[|requests|](i requires 0 <= i < |requests| => requests[i]);
      rrCursor := 0;
      activeCount := |requests|;
    }

    ghost function Now(): State
      reads this, reqs
    {
      State(reqs[..], rrCursor)
    }

    // The requests to serve next.
    method Pick() returns (picked: seq<nat>)
      requires Valid(Now())
      ensures picked == Picked(Now(), maxActive)
    {
      hide Live;
      var n, i := reqs.Length, 0;
      picked := [];
      ghost var s := Now();
      while i < n && |picked| < maxActive
        invariant 0 <= i <= n && |picked| == |Chosen(s, maxActive, i)|
        invariant forall j :: 0 <= j < |picked| ==> picked[j] == At(s, Chosen(s, maxActive, i)[j])
      {
        AtIsRemainder(s, i);
        var idx := (rrCursor + i) % n;
        assert idx == At(s, i) && reqs[idx] == s.reqs[idx];
        if Live(reqs[idx]) {
          picked := picked + [idx];
        }
        i := i + 1;
      }
      FullStays(s, maxActive, i, n);
    }

    // One round: serve the picks in order.
    method ServeRound(M: Model, picked: seq<nat>, round: nat)
      requires Valid(Now()) && picked == Picked(Now(), maxActive) && picked != [] && Now().reqs == reqs[..]
      requires activeCount == Unfinished(reqs[..])
      modifies this`rrCursor, this`activeCount, reqs
      ensures Valid(Now()) && Now() == AfterRound(M, old(Now()), maxActive, round)
      ensures activeCount == Unfinished(reqs[..])
      ensures forall r: nat :: r < reqs.Length ==>
                if r in picked then Served(M, old(reqs[r]), reqs[r], M.choose(round, r, old(reqs[r])))
                else reqs[r] == old(reqs[r])
    {
      hide *;
      ghost var s := Now();
      NowIs();
      NothingServed(M, s, picked, round);
      ValidCursor(s, picked, maxActive);
      rrCursor := (picked[|picked| - 1] + 1) % reqs.Length;
      var i := 0;
      while i < |picked|
        invariant 0 <= i <= |picked| && activeCount == Unfinished(reqs[..])
        invariant rrCursor == Next(picked[|picked| - 1], reqs.Length)
        invariant reqs[..] == PartlyServed(M, s, picked, i, round)
      {
        var r := picked[i];
        ghost var before := reqs[..];
        ServeNext(M, s, maxActive, picked, i, round);
        var q := Advance(M, reqs[r], M.choose(round, r, reqs[r]));
        OneFinishes(reqs[..], r, q);
        reqs[r] := q;
        assert reqs[..] == before[r := q];
        if q.finished {
          activeCount := activeCount - 1;
        }
        i := i + 1;
      }
      AllServed(M, s, maxActive, picked, round);
      NowIs();
      ghost var after := Now();
      forall r: nat | r < reqs.Length
        ensures if r in picked then Served(M, s.reqs[r], after.reqs[r], M.choose(round, r, s.reqs[r]))
                else after.reqs[r] == s.reqs[r]
      {
        RoundSpelledOut(M, s, maxActive, round, r);
      }
    }

    lemma NowIs()
      ensures Now() == State(reqs[..], rrCursor)
    {
    }

    /** The decode loop. It ends with every request finished; each has decoded properly; and if the
        model's answer to a request does not depend on the round, each request gets exactly what it
        would get alone, whatever the other requests and the batch width. */
    method DecodeAll(M: Model) returns (rounds: nat)
      requires maxActive >= 1 && rrCursor == 0 && activeCount == reqs.Length
      requires forall r :: 0 <= r < reqs.Length ==> Live(reqs[r])
      modifies this`rrCursor, this`activeCount, reqs
      ensures forall r :: 0 <= r < reqs.Length ==> reqs[r].finished && Decoded(M, old(reqs[r]), reqs[r])
      ensures forall r: nat :: r < reqs.Length ==> FedBack(M, r, old(reqs[r]), reqs[r])
      ensures RoundFree(M) ==> forall r: nat :: r < reqs.Length ==> reqs[r] == Solo(M, r, old(reqs[r]))
      ensures reqs.Length > 0 ==> Valid(old(Now())) && reqs[..] == AfterRounds(M, old(Now()), maxActive, 0, rounds).reqs
    {
      hide *;
      rounds := 0;
      ghost var start := Now();
      NowIs();
      Starts(M, maxActive, start);
      while activeCount > 0
        invariant activeCount == Unfinished(reqs[..])
        invariant Now() == State(reqs[..], rrCursor)
        invariant Progress(M, start, maxActive, rounds, Now())
        decreases TotalLeft(reqs[..])
      {
        StillValid(M, start, maxActive, rounds, Now());
        var picked := Pick();
        if picked == [] {
          break;
        }
        ghost var s := Now();
        ServeRound(M, picked, rounds);
        NowIs();
        RoundProgress(M, s, maxActive, rounds);
        ProgressContinues(M, start, maxActive, rounds, s);
        rounds := rounds + 1;
      }
      ProgressEnds(M, start, maxActive, rounds, Now());
      assert reqs[..] == Now().reqs;
    }

    /** The path for one active request at a time; `steps` counts the calls of the model, whose
        answers may depend on it. */
    method DecodeOneByOne(M: Model) returns (steps: nat)
      modifies reqs
      ensures forall r :: 0 <= r < reqs.Length ==> !Live(reqs[r]) && Decoded(M, old(reqs[r]), reqs[r])
      ensures forall r: nat :: r < reqs.Length ==> FedBack(M, r, old(reqs[r]), reqs[r])
      ensures forall r :: 0 <= r < reqs.Length && Live(old(reqs[r])) ==> reqs[r].finished
      ensures RoundFree(M) ==> forall r: nat :: r < reqs.Length ==> reqs[r] == Solo(M, r, old(reqs[r]))
    {
      hide RoundFree, Solo, Decoded, FedBack;
      ghost var start := reqs[..];
      var r := 0;
      steps := 0;
      while r < reqs.Length
        invariant 0 <= r <= reqs.Length
        invariant forall q: nat :: q < r ==> SoloDone(M, q, start[q], reqs[q])
        invariant forall q: nat :: r <= q < reqs.Length ==> reqs[q] == start[q]
      {
        SoloStarts(M, r, start[r]);
        while Live(reqs[r])
          invariant SoloSoFar(M, r, start[r], reqs[r])
          invariant forall q: nat :: q < r ==> SoloDone(M, q, start[q], reqs[q])
          invariant forall q: nat :: r < q < reqs.Length ==> reqs[q] == start[q]
          decreases Left(reqs[r])
        {
          SoloStep(M, r, start[r], reqs[r], steps);
          reqs[r] := Advance(M, reqs[r], M.choose(steps, r, reqs[r]));
          steps := steps + 1;
        }
        SoloEnds(M, r, start[r], reqs[r]);
        r := r + 1;
      }
    }
  }

  // A request part of the way through its own decoding.
  ghost predicate SoloSoFar(M: Model, r: nat, q0: Req, q: Req) {
    && Decoded(M, q0, q) && FedBack(M, r, q0, q) && (if Live(q0) then Going(q) else q == q0)
    && (RoundFree(M) ==> Solo(M, r, q) == Solo(M, r, q0))
  }

  ghost predicate SoloDone(M: Model, r: nat, q0: Req, q: Req) {
    && Decoded(M, q0, q) && FedBack(M, r, q0, q) && !Live(q) && (Live(q0) ==> q.finished)
    && (RoundFree(M) ==> q == Solo(M, r, q0))
  }

  lemma SoloStarts(M: Model, r: nat, q: Req)
    ensures SoloSoFar(M, r, q, q)
  {
  }

  lemma SoloStep(M: Model, r: nat, q0: Req, q: Req, step: nat)
    requires SoloSoFar(M, r, q0, q) && Live(q)
    ensures var q' := Advance(M, q, M.choose(step, r, q)); SoloSoFar(M, r, q0, q') && Left(q') < Left(q)
  {
    AdvanceDecodes(M, q0, q, M.choose(step, r, q));
    FedBackGrows(M, r, q0, q, step);
    hide FedBack;
    assert RoundFree(M) ==> M.choose(step, r, q) == M.choose(0, r, q);
  }

  lemma SoloEnds(M: Model, r: nat, q0: Req, q: Req)
    requires SoloSoFar(M, r, q0, q) && !Live(q)
    ensures SoloDone(M, r, q0, q)
  {
    hide Decoded, FedBack;
  }

  lemma {:induction false} FullStays(s: State, m: nat, i: nat, n: nat)
    requires Valid(s) && i <= n <= |s.reqs| && (i == n || |Chosen(s, m, i)| >= m)
    ensures Chosen(s, m, n) == Chosen(s, m, i)
    decreases n
  {
    if i < n {
      FullStays(s, m, i, n - 1);
    }
  }
}
