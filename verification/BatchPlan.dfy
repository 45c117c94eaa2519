/** How many jobs a hand-off takes (worker_eventloop.go): worthSpawning, batchSize, batchBudget and
    the plan they make. Counts are small enough for int64: alive is below 2^32. */
module BatchPlan {
  import opened Basics

  const MAX_BATCH := 32
  const SPAWN_NANOS := 2_000
  const HANDOFF_GAP := 32_000

  function Max(a: int, b: int): int
  {
    if a >= b then a else b
  }

  predicate WorthSpawning(pending: nat, jobNanos: nat, alive: nat)
  {
    alive == 0 || jobNanos == 0 || pending * jobNanos > SPAWN_NANOS * alive * alive
  }

  function BatchSize(pending: nat, shares: nat): int
  {
    Max(1, Min(pending / Max(shares, 1), MAX_BATCH))
  }

  function BatchBudget(jobNanos: nat, alive: nat): int
  {
    if jobNanos == 0 then 1
    else
      var need := (Max(alive, 1) * HANDOFF_GAP + jobNanos - 1) / jobNanos;
      Max(1, Min(need, MAX_BATCH))
  }

  /** planBatch: the size of the next batch, or none when no worker is idle and one more is not worth
      spawning. limit is the source's maxBatch. */
  function Plan(pending: nat, concurrency: nat, jobNanos: nat, alive: nat, idle: bool, limit: nat): Option<int>
  {
    var grow := WorthSpawning(pending, jobNanos, alive);
    if !idle && !grow then None
    else
      var shares := if grow then Min(concurrency, pending) else alive;
      var budget := if concurrency > 1 then BatchBudget(jobNanos, alive) else MAX_BATCH;
      Some(Min(Min(BatchSize(pending, shares), budget), limit))
  }

  // ---------------------------------------------------------------- the size

  /** A planned batch has 1 to 32 jobs and no more than the source allows; there is none exactly when
      no worker is idle and the live ones drain the backlog well enough. */
  lemma PlanInRange(pending: nat, concurrency: nat, jobNanos: nat, alive: nat, idle: bool, limit: nat)
    requires limit >= 1
    ensures var plan := Plan(pending, concurrency, jobNanos, alive, idle, limit);
      && (plan.None? <==> !idle && alive > 0 && jobNanos > 0 && pending * jobNanos <= SPAWN_NANOS * alive * alive)
      && (plan.Some? ==> 1 <= plan.value <= MAX_BATCH && plan.value <= limit)
  {
    var budget := BatchBudget(jobNanos, alive);
    assert 1 <= budget <= MAX_BATCH;
  }

  /** The size is the largest of 1 to 32 that every share of the backlog can have, or 1. */
  lemma SizeIsFairShare(pending: nat, shares: nat, k: int)
    requires 1 <= k <= MAX_BATCH
    ensures k <= BatchSize(pending, shares) <==> k == 1 || k * Max(shares, 1) <= pending
  {
    var n := Max(shares, 1);
    var q, r := pending / n, pending % n;
    assert pending == q * n + r && 0 <= r < n;
    if k <= q {
      Scale(k, q, n);
    } else {
      Scale(q + 1, k, n);
      assert (q + 1) * n == q * n + n;
    }
  }

  /** A planned batch is the largest that the source allows, that every share can have, and that with
      one job less would bring workers back too often; with one worker the last does not count, and
      until a batch is measured a batch is one job. */
  lemma PlanIsLargest(pending: nat, concurrency: nat, jobNanos: nat, alive: nat, idle: bool, limit: nat, k: int)
    requires Plan(pending, concurrency, jobNanos, alive, idle, limit).Some? && 1 <= k <= MAX_BATCH
    ensures var shares := if WorthSpawning(pending, jobNanos, alive) then Min(concurrency, pending) else alive;
      k <= Plan(pending, concurrency, jobNanos, alive, idle, limit).value <==>
      && k <= limit
      && (k == 1 || k * Max(shares, 1) <= pending)
      && (k == 1 || concurrency <= 1 || (jobNanos > 0 && !Spaced(k - 1, jobNanos, alive)))
  {
    SizeIsFairShare(pending, if WorthSpawning(pending, jobNanos, alive) then Min(concurrency, pending) else alive, k);
    if k > 1 && jobNanos > 0 {
      BudgetIsLeast(jobNanos, alive, k - 1);
    }
  }

  // ---------------------------------------------------------------- the budget

  /** k batches of work keep alive workers away for at least one gap each. */
  predicate Spaced(k: int, jobNanos: nat, alive: nat)
  {
    k * jobNanos >= Max(alive, 1) * HANDOFF_GAP
  }

  lemma CeilIsLeast(total: nat, d: nat, k: int)
    requires d > 0
    ensures k * d >= total <==> k >= (total + d - 1) / d
  {
    var q := (total + d - 1) / d;
    var r := (total + d - 1) % d;
    assert total + d - 1 == q * d + r && 0 <= r < d;
    if k >= q {
      Scale(q, k, d);
    } else {
      Scale(k, q - 1, d);
      assert (q - 1) * d == q * d - d;
    }
  }

  lemma Scale(a: int, b: int, d: nat)
    requires a <= b
    ensures a * d <= b * d
  {
    assert b * d - a * d == (b - a) * d;
  }

  /** Once a batch is measured, the budget is the least k, of 1 to 32, for which workers with k jobs
      each come back no more often than once a gap, or 32 if there is none. */
  lemma BudgetIsLeast(jobNanos: nat, alive: nat, k: int)
    requires jobNanos > 0 && 1 <= k <= MAX_BATCH
    ensures 1 <= BatchBudget(jobNanos, alive) <= MAX_BATCH
    ensures k >= BatchBudget(jobNanos, alive) <==> Spaced(k, jobNanos, alive) || k == MAX_BATCH
  {
    CeilIsLeast(Max(alive, 1) * HANDOFF_GAP, jobNanos, k);
  }

  // ---------------------------------------------------------------- fair shares

  lemma Share(r: nat, n: nat)
    requires n > 0
    ensures r / n <= r && (r >= n ==> r - r / n >= n - 1) && (r >= n ==> r / n >= 1)
  {
    var q, m := r / n, r % n;
    assert r == q * n + m && 0 <= m < n;
    if r >= n {
      if q < 1 {
        Scale(q, 0, n);
      }
      assert q * n - q == q * (n - 1);
      Scale(1, q, n - 1);
    } else {
      if q >= 1 {
        Scale(1, q, n);
      }
    }
    if q > 0 {
      Scale(1, n, q);
      assert n * q == q * n;
    }
  }

  /** What is left of p pending jobs after hand-offs planned while growing, one per element of caps:
      each takes its share, and at most its cap (budget and source limit). */
  function Left(p: nat, concurrency: nat, caps: seq<nat>): int
  {
    if caps == [] then p
    else
      var before := Left(p, concurrency, caps[..|caps| - 1]);
      before - Min(BatchSize(Max(before, 0), Min(concurrency, Max(before, 0))), caps[|caps| - 1])
  }

  lemma FairStep(r: nat, concurrency: nat, cap: nat, c: nat)
    requires c > 0 && r >= c && concurrency >= c && cap >= 1
    ensures var k := Min(BatchSize(r, Min(concurrency, r)), cap);
      1 <= k <= r && r - k >= c - 1
  {
    Share(r, Min(concurrency, r));
  }

  /** While the pool grows, batching never costs parallelism: from p >= c pending jobs and c free
      slots, after i < c hand-offs at least c - i jobs are left, so the next one gets at least one. */
  lemma {:induction false} EveryHandoffGetsWork(p: nat, concurrency: nat, c: nat, caps: seq<nat>)
    requires c <= p && c <= concurrency && |caps| <= c && forall i :: 0 <= i < |caps| ==> caps[i] >= 1
    ensures c - |caps| <= Left(p, concurrency, caps) <= p - |caps|
  {
    if caps != [] {
      var before := Left(p, concurrency, caps[..|caps| - 1]);
      EveryHandoffGetsWork(p, concurrency, c, caps[..|caps| - 1]);
      FairStep(before, concurrency, caps[|caps| - 1], c - |caps| + 1);
    }
  }

  // ---------------------------------------------------------------- growth

  /** A pool that is large enough for a backlog is large enough for a smaller one, and so is a larger
      pool: growing one by one stops, and does not start again as the backlog drains. */
  lemma GrowthStops(pending: nat, jobNanos: nat, alive: nat, pending': nat, alive': nat)
    requires !WorthSpawning(pending, jobNanos, alive) && pending' <= pending && alive' >= alive
    ensures !WorthSpawning(pending', jobNanos, alive')
  {
    Scale(pending', pending, jobNanos);
    Scale(alive, alive', alive);
    Scale(alive, alive', alive');
    assert alive * alive' == alive' * alive;
    assert SPAWN_NANOS * alive * alive == SPAWN_NANOS * (alive * alive);
    assert SPAWN_NANOS * alive' * alive' == SPAWN_NANOS * (alive' * alive');
  }

  /** Growth from any backlog does stop: at pending * jobNanos workers, if not before. */
  lemma GrowthIsBounded(pending: nat, jobNanos: nat, alive: nat)
    requires jobNanos > 0 && alive > 0 && alive >= pending * jobNanos
    ensures !WorthSpawning(pending, jobNanos, alive)
  {
    Scale(1, alive, alive);
    assert SPAWN_NANOS * alive * alive == SPAWN_NANOS * (alive * alive);
  }
}
