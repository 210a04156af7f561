/** The mini-batch schedule of `fit`: the row counts that one epoch passes to
    `updateWeights`, in order, written in closed form. The engine's batch
    counter follows this schedule: `Plan` is the counter's own bookkeeping,
    and `Perceptron.EpochFacts` (used by `Perceptron.Fit`) shows that the
    reference epoch `Perceptron.EpochFrom` updates by `Plan`, hence by
    `Schedule`. */
module Batching {

  /** `n` copies of `x`. */
  function Repeat(x: nat, n: nat): (r: seq<nat>)
    ensures |r| == n
    ensures forall i :: 0 <= i < n ==> r[i] == x
  {
    seq(n, i => x)
  }

  /** The sum of a sequence of counts, accumulated from the left. */
  function Total(s: seq<nat>): nat
  {
    if |s| == 0 then 0 else Total(s[..|s| - 1]) + s[|s| - 1]
  }

  /** The `nSamples` arguments of the `updateWeights` calls made by one epoch
      over `n` rows with batch size `b`: `n / b` full batches followed by the
      remainder when there is one. A batch size below 1 never equals the
      counter, so all rows go into the single trailing update. */
  function Schedule(n: nat, b: int): seq<nat>
  {
    if b >= 1 then
      Repeat(b, n / b) + (if n % b != 0 then [n % b] else [])
    else if n == 0 then []
    else [n]
  }

  lemma {:induction false} MulMonotone(b: nat, k: nat)
    requires k >= 1
    ensures b * k >= b
  {
    if k > 1 {
      MulMonotone(b, k - 1);
    }
  }

  /** Euclidean division is unique: a quotient and a remainder below `b` that
      reassemble `n` are `n / b` and `n % b`. */
  lemma DivModUnique(n: nat, b: nat, q: nat, c: nat)
    requires b >= 1 && n == q * b + c && c < b
    ensures n / b == q && n % b == c
  {
    var q' := n / b;
    if q' > q {
      MulMonotone(b, q' - q);
    } else if q' < q {
      MulMonotone(b, q - q');
    }
  }

  lemma {:induction false} TotalAppend(s: seq<nat>, t: seq<nat>)
    ensures Total(s + t) == Total(s) + Total(t)
  {
    if |t| > 0 {
      TotalAppend(s, t[..|t| - 1]);
      assert (s + t)[..|s + t| - 1] == s + t[..|t| - 1];
    } else {
      assert s + t == s;
    }
  }

  lemma TotalSnoc(s: seq<nat>, x: nat)
    ensures Total(s + [x]) == Total(s) + x
  {
    assert (s + [x])[..|s|] == s;
  }

  lemma {:induction false} TotalRepeat(x: nat, k: nat)
    ensures Total(Repeat(x, k)) == x * k
  {
    if k > 0 {
      TotalRepeat(x, k - 1);
      assert Repeat(x, k)[..k - 1] == Repeat(x, k - 1);
    }
  }

  /** `q` full batches of `b` and a trailing remainder `c` add up. */
  lemma TotalBatches(b: nat, q: nat, c: nat)
    ensures Total(Repeat(b, q) + (if c != 0 then [c] else [])) == b * q + c
  {
    var tail: seq<nat> := if c != 0 then [c] else [];
    TotalAppend(Repeat(b, q), tail);
    TotalRepeat(b, q);
    if c != 0 {
      assert tail[..0] == [];
    }
  }

  /** Every row of the epoch is counted in exactly one update. */
  lemma ScheduleTotal(n: nat, b: int)
    ensures Total(Schedule(n, b)) == n
  {
    if b >= 1 {
      var q, c := n / b, n % b;
      assert n == b * q + c;
      assert Schedule(n, b) == Repeat(b, q) + (if c != 0 then [c] else []);
      TotalBatches(b, q, c);
    } else if n > 0 {
      assert Schedule(n, b)[..0] == [];
    }
  }

  /** Every update averages over at least one row and at most one batch (or
      all `n` rows, when the batch size is below 1), so the division in
      `updateWeights` is never by zero. */
  lemma ScheduleBounds(n: nat, b: int, k: nat)
    requires k < |Schedule(n, b)|
    ensures 1 <= Schedule(n, b)[k]
    ensures b >= 1 ==> Schedule(n, b)[k] <= b
    ensures b < 1 ==> Schedule(n, b)[k] == n
  {
  }

  /** With batch size 1 there is one update per row, each over that row. */
  lemma ScheduleStochastic(n: nat)
    ensures Schedule(n, 1) == Repeat(1, n)
  {
  }

  /** A batch at least as large as the data gives one update over all rows;
      so does a batch size below 1. */
  lemma ScheduleFullBatch(n: nat, b: int)
    requires n >= 1
    requires b >= n || b < 1
    ensures Schedule(n, b) == [n]
  {
    if b >= 1 {
      if b == n {
        DivModUnique(n, b, 1, 0);
      } else {
        DivModUnique(n, b, 0, n);
      }
    }
  }

  /** The schedule has an update at all exactly when there are rows. */
  lemma ScheduleEmpty(n: nat, b: int)
    ensures Schedule(n, b) == [] <==> n == 0
  {
    if b >= 1 && n > 0 && n / b == 0 {
      DivModUnique(n, b, 0, n % b);
    }
  }

  /** The state of `fit`'s batch counter after `n` rows: the updates made
      so far are full batches, and `counter` rows wait for the next one. */
  predicate Pending(n: nat, b: int, updates: seq<nat>, counter: nat)
  {
    (b >= 1 ==> counter < b && updates == Repeat(b, |updates|)) &&
    (b < 1 ==> updates == []) &&
    n == Total(updates) + counter
  }

  /** One more row: the counter goes up, and an update is made and the
      counter reset when it reaches the batch size. */
  lemma PendingStep(n: nat, b: int, updates: seq<nat>, counter: nat)
    requires Pending(n, b, updates, counter)
    ensures counter + 1 == b ==> Pending(n + 1, b, updates + [counter + 1], 0)
    ensures counter + 1 != b ==> Pending(n + 1, b, updates, counter + 1)
  {
    TotalSnoc(updates, counter + 1);
    if counter + 1 == b {
      assert updates + [b] == Repeat(b, |updates| + 1);
    }
  }

  /** After the last row the remainder, if any, makes the final update, and
      the updates are exactly the schedule. */
  lemma PendingComplete(n: nat, b: int, updates: seq<nat>, counter: nat)
    requires Pending(n, b, updates, counter)
    ensures updates + (if counter != 0 then [counter] else []) == Schedule(n, b)
  {
    if b >= 1 {
      TotalRepeat(b, |updates|);
      DivModUnique(n, b, |updates|, counter);
    } else {
      assert Total(updates) == 0;
    }
  }

  /** The `nSamples` of the updates still to come in an epoch with `m` rows
      left and `counter` rows counted since the last update: the counter
      steps once per row, an update is made when it reaches `b`, and the
      remainder, if any, is updated after the last row. */
  function Plan(m: nat, b: int, counter: nat): seq<nat>
    decreases m
  {
    if m == 0 then (if counter != 0 then [counter] else [])
    else if counter + 1 == b then [counter + 1] + Plan(m - 1, b, 0)
    else Plan(m - 1, b, counter + 1)
  }

  /** Whatever the counter state after `i` of `n` rows, the updates made so
      far followed by the updates still planned are the closed-form
      schedule; so an epoch planned from its start is the schedule. */
  lemma {:induction false} PlanCompletes(n: nat, b: int, i: nat, updates: seq<nat>, counter: nat)
    requires i <= n && Pending(i, b, updates, counter)
    ensures updates + Plan(n - i, b, counter) == Schedule(n, b)
    decreases n - i
  {
    if i == n {
      PendingComplete(n, b, updates, counter);
    } else {
      PendingStep(i, b, updates, counter);
      if counter + 1 == b {
        PlanCompletes(n, b, i + 1, updates + [counter + 1], 0);
        assert updates + Plan(n - i, b, counter) == (updates + [counter + 1]) + Plan(n - (i + 1), b, 0);
      } else {
        PlanCompletes(n, b, i + 1, updates, counter + 1);
      }
    }
  }
}
