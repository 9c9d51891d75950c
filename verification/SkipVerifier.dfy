/** The decision to skip a pipeline stage for a token: accept while activations barely change,
    but neither too often in a row nor too rarely. */
module SkipVerifier {
  import opened Arithmetic
  import opened Common

  /** Settings of a run; both limits are at least 1. */
  datatype Config = Config(theta: real, alpha: real, maxConsecutive: nat, maxRejectStreak: nat)

  predicate ValidConfig(c: Config) {
    c.theta >= 0.0 && 0.0 <= c.alpha <= 1.0 && c.maxConsecutive >= 1 && c.maxRejectStreak >= 1
  }

  /** Accepts (or rejects) at the end of a history of decisions. */
  function Trailing(h: seq<bool>, b: bool): (n: nat)
    ensures n <= |h|
  {
    if h == [] || h[|h| - 1] != b then 0 else Trailing(h[..|h| - 1], b) + 1
  }

  lemma TrailingGrows(h: seq<bool>, d: bool, b: bool)
    ensures Trailing(h + [d], b) == if d == b then Trailing(h, b) + 1 else 0
  {
    assert (h + [d])[..|h|] == h;
  }

  // At no point of the history have there been more than k accepts in a row.
  predicate Bounded(h: seq<bool>, k: nat) {
    Trailing(h, true) <= k && (h == [] || Bounded(h[..|h| - 1], k))
  }

  lemma {:induction false} BoundedPrefix(h: seq<bool>, k: nat, n: nat)
    requires Bounded(h, k) && n <= |h|
    ensures Trailing(h[..n], true) <= k
    decreases |h|
  {
    if n == |h| {
      assert h[..n] == h;
    } else {
      BoundedPrefix(h[..|h| - 1], k, n);
      assert h[..|h| - 1][..n] == h[..n];
    }
  }

  /** The streak counter: rejects since the last accept or since the counter last reached its
      limit, whichever is later. */
  function Streak(h: seq<bool>, limit: nat): (n: nat)
    ensures n <= limit
  {
    if h == [] || h[|h| - 1] then 0
    else
      var n := Streak(h[..|h| - 1], limit);
      if n >= limit then 0 else n + 1
  }

  lemma StreakGrows(h: seq<bool>, d: bool, limit: nat)
    ensures Streak(h + [d], limit) == if d || Streak(h, limit) >= limit then 0 else Streak(h, limit) + 1
  {
    assert (h + [d])[..|h|] == h;
  }

  /** Of the rejects in a row every (limit + 1)-th starts the count anew. */
  lemma {:induction false} StreakCountsRejects(h: seq<bool>, limit: nat)
    ensures Streak(h, limit) == Trailing(h, false) % (limit + 1)
  {
    if h == [] || h[|h| - 1] {
      RemainderIs(0, limit + 1, 0, 0);
    } else {
      StreakCountsRejects(h[..|h| - 1], limit);
      NextCount(Trailing(h[..|h| - 1], false), limit + 1);
    }
  }

  // The verifier's own rule: with the counter at its limit the decision is a reject.
  predicate Dampened(h: seq<bool>, limit: nat) {
    h == [] || ((Streak(h[..|h| - 1], limit) >= limit ==> !h[|h| - 1]) && Dampened(h[..|h| - 1], limit))
  }

  // At no point of the history have there been more than `limit` rejects in a row.
  predicate RejectsWithin(h: seq<bool>, limit: nat) {
    Trailing(h, false) <= limit && (h == [] || RejectsWithin(h[..|h| - 1], limit))
  }

  // How many decisions were taken with the counter at its limit.
  function Forced(h: seq<bool>, limit: nat): nat {
    if h == [] then 0 else Forced(h[..|h| - 1], limit) + if Streak(h[..|h| - 1], limit) >= limit then 1 else 0
  }

  /** One more decision after at most `limit` rejects in a row: there are still at most `limit` if and
      only if the counter was below its limit, which is the test of the forcing branch. */
  lemma OneMoreExactlyWhen(h: seq<bool>, d: bool, limit: nat)
    requires Trailing(h, false) <= limit && (Streak(h, limit) >= limit ==> !d)
    ensures Trailing(h + [d], false) <= limit <==> Streak(h, limit) < limit
  {
    StreakCountsRejects(h, limit);
    RemainderIs(Trailing(h, false), limit + 1, 0, Trailing(h, false));
    TrailingGrows(h, d, false);
  }

  /** Over a whole history: the rejects in a row stay within the limit if and only if no decision was
      ever forced. */
  lemma {:induction false} RejectsWithinExactlyWhen(h: seq<bool>, limit: nat)
    requires Dampened(h, limit)
    ensures RejectsWithin(h, limit) <==> Forced(h, limit) == 0
  {
    if h != [] {
      var n := |h| - 1;
      RejectsWithinExactlyWhen(h[..n], limit);
      assert h == h[..n] + [h[n]];
      if Trailing(h[..n], false) <= limit {
        OneMoreExactlyWhen(h[..n], h[n], limit);
      } else {
        assert !RejectsWithin(h[..n], limit);
      }
    }
  }

  // Is the change small enough, and does the sampling rate admit this token?
  predicate Wants(c: Config, delta: real, unit: real) {
    delta <= c.theta && c.alpha > 0.0 && (c.alpha < 1.0 ==> unit < c.alpha)
  }

  class Verifier {
    const config: Config
    var consecutiveAccepts: nat
    var rejectStreak: nat
    var forcedFull: nat
    // Decisions since the last reset.
    ghost var history: seq<bool>

    // The counters as functions of the history.
    ghost predicate Valid()
      reads this
    {
      && ValidConfig(config)
      && consecutiveAccepts == Trailing(history, true)
      && rejectStreak == Streak(history, config.maxRejectStreak) && forcedFull == Forced(history, config.maxRejectStreak)
      && Bounded(history, config.maxConsecutive) && Dampened(history, config.maxRejectStreak)
    }

    constructor (c: Config)
      requires ValidConfig(c)
      ensures Valid() && config == c && history == []
    {
      config := c;
      consecutiveAccepts, rejectStreak, forcedFull, history := 0, 0, 0, [];
    }

    // On every change between prefill and decoding.
    method Reset()
      requires Valid()
      modifies this
      ensures Valid() && history == []
    {
      consecutiveAccepts, rejectStreak, forcedFull, history := 0, 0, 0, [];
    }

    /** One decision. Without a previous activation to compare with there is none. A wanted skip is
        accepted exactly when the last maxConsecutive decisions were not all accepts and the
        streak counter is not at its limit. */
    method Evaluate(delta: Option<real>, unit: real) returns (r: Option<bool>)
      requires Valid()
      modifies this
      ensures Valid()
      ensures delta == None ==> r == None && unchanged(this)
      ensures delta.Some? ==> r.Some? && history == old(history) + [r.value]
      ensures delta.Some? ==>
                (r.value <==> Wants(config, delta.value, unit)
                              && Trailing(old(history), true) < config.maxConsecutive
                              && Streak(old(history), config.maxRejectStreak) < config.maxRejectStreak)
      ensures consecutiveAccepts <= config.maxConsecutive && rejectStreak <= config.maxRejectStreak
      ensures delta.Some? && Trailing(old(history), false) <= config.maxRejectStreak ==>
                (Trailing(history, false) <= config.maxRejectStreak <==> old(rejectStreak) < config.maxRejectStreak)
    {
      if delta == None {
        CountersFollow(config, history, false);
        return None;
      }
      var accept := delta.value <= config.theta;
      if accept {
        if config.alpha <= 0.0 {
          accept := false;
        } else if config.alpha < 1.0 {
          accept := unit < config.alpha;
        }
      }
      hide Trailing, Streak, Bounded, Dampened, Forced;
      ghost var wanted := accept;
      assert wanted == Wants(config, delta.value, unit);
      hide Wants;
      var forceFull := false;
      if accept && consecutiveAccepts >= config.maxConsecutive {
        accept := false;
      }
      if rejectStreak >= config.maxRejectStreak {
        accept := false;
        forceFull := true;
      }
      assert accept == (wanted && consecutiveAccepts < config.maxConsecutive && rejectStreak < config.maxRejectStreak);
      assert forceFull == (rejectStreak >= config.maxRejectStreak);
      CountersFollow(config, history, accept);
      if Trailing(history, false) <= config.maxRejectStreak {
        OneMoreExactlyWhen(history, accept, config.maxRejectStreak);
      }
      if accept {
        consecutiveAccepts := consecutiveAccepts + 1;
        rejectStreak := 0;
      } else {
        consecutiveAccepts := 0;
        if forceFull {
          rejectStreak := 0;
          forcedFull := forcedFull + 1;
        } else {
          rejectStreak := rejectStreak + 1;
        }
      }
      history := history + [accept];
      assert forcedFull == Forced(history, config.maxRejectStreak) && rejectStreak == Streak(history, config.maxRejectStreak);
      return Some(accept);
    }

    /** The program's own count of forced decisions tells whether the limit has held since the reset. */
    lemma CountTells()
      requires Valid()
      ensures forcedFull == 0 <==> RejectsWithin(history, config.maxRejectStreak)
    {
      RejectsWithinExactlyWhen(history, config.maxRejectStreak);
    }
  }

  // How the counters move with one more decision.
  lemma CountersFollow(c: Config, h: seq<bool>, d: bool)
    requires Bounded(h, c.maxConsecutive)
    ensures Trailing(h, true) <= c.maxConsecutive
    ensures Trailing(h + [d], true) == if d then Trailing(h, true) + 1 else 0
    ensures Streak(h + [d], c.maxRejectStreak) ==
            if d || Streak(h, c.maxRejectStreak) >= c.maxRejectStreak then 0 else Streak(h, c.maxRejectStreak) + 1
    ensures Forced(h + [d], c.maxRejectStreak) ==
            Forced(h, c.maxRejectStreak) + if Streak(h, c.maxRejectStreak) >= c.maxRejectStreak then 1 else 0
    ensures Bounded(h + [d], c.maxConsecutive) <==> d ==> Trailing(h, true) < c.maxConsecutive
    ensures Dampened(h, c.maxRejectStreak) && (Streak(h, c.maxRejectStreak) >= c.maxRejectStreak ==> !d)
            ==> Dampened(h + [d], c.maxRejectStreak)
  {
    hide Trailing, Streak;
    TrailingGrows(h, d, true);
    StreakGrows(h, d, c.maxRejectStreak);
    assert (h + [d])[..|h|] == h;
  }

  lemma NextCount(n: nat, m: nat)
    requires m >= 1
    ensures (n + 1) % m == if n % m == m - 1 then 0 else n % m + 1
    ensures 0 % m == 0
  {
    var q := n / m;
    assert n == q * m + n % m;
    NextMultiple(q, m);
    if n % m == m - 1 {
      RemainderIs(n + 1, m, q + 1, 0);
    } else {
      RemainderIs(n + 1, m, q, n % m + 1);
    }
  }

  lemma RemainderIs(x: nat, m: nat, q: nat, r: nat)
    requires m >= 1 && x == q * m + r && r < m
    ensures x % m == r
  {
    QuotientUnique(x, m, q, r);
    assert x == x / m * m + x % m;
  }

  /** Among any maxConsecutive + 1 decisions in a row at least one is a reject. */
  lemma {:induction false} SomeReject(h: seq<bool>, i: nat, k: nat)
    requires 1 <= k && i + k <= |h| && Bounded(h, k - 1)
    ensures exists j :: i <= j < i + k && !h[j]
  {
    if forall j :: i <= j < i + k ==> h[j] {
      AllAccepts(h, i, k);
      BoundedPrefix(h, k - 1, i + k);
    }
  }

  lemma {:induction false} AllAccepts(h: seq<bool>, i: nat, k: nat)
    requires i + k <= |h| && forall j :: i <= j < i + k ==> h[j]
    ensures Trailing(h[..i + k], true) >= k
  {
    if k > 0 {
      AllAccepts(h, i, k - 1);
      assert h[..i + k][..i + k - 1] == h[..i + (k - 1)];
    }
  }

  /** The limit on rejects bounds the counter, not the rejects in a row: a token that always
      changes too much is rejected any number of times. */
  method RejectForever(c: Config, delta: real, n: nat) returns (v: Verifier)
    requires ValidConfig(c) && delta > c.theta
    ensures fresh(v) && v.Valid() && v.config == c && Trailing(v.history, false) == n
  {
    v := new Verifier(c);
    var i := 0;
    while i < n
      invariant 0 <= i <= n && fresh(v) && v.Valid() && v.config == c && Trailing(v.history, false) == i
    {
      ghost var before := v.history;
      var r := v.Evaluate(Some(delta), 0.0);
      TrailingGrows(before, r.value, false);
      i := i + 1;
    }
  }
}
