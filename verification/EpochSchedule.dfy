/** The greedy choice of epoch lengths: within every budget and the capacity, always progressing, and with how many
    epochs a lone request takes. */
module EpochSchedule {
  import opened Layout
  import opened Contract
  import opened RowLeases
  import opened Scheduler

  /** The epoch length is the longest power of two that neither the configuration nor any member's budget forbids. */
  lemma StepsWithinBudgets(c: Config, requests: Requests, ids: seq<ReqId>)
    requires ValidConfig(c) && ids != [] && forall id | id in ids :: id in requests && Remaining(requests[id]) >= 1
    ensures var steps := EpochSteps(c, requests, ids);
            && steps in {1, 2, 4, 8} && steps <= c.maxSteps && (forall id | id in ids :: 1 <= steps <= Remaining(requests[id]))
            && (2 * steps > c.maxSteps || exists id :: id in ids && 2 * steps > Remaining(requests[id]))
  {
    var least := Least(requests, ids, c.maxSteps);
    assert least >= 1 by {
      if least != c.maxSteps { var id :| id in ids && least == Remaining(requests[id]); }
    }
  }

  /** The budget the capacity has to hold at admission. */
  predicate Admissible(c: Config, q: Request) { q.prompt + q.maxTokens - 1 <= c.capacity }

  /** For admissible requests the capacity rejection never fires. */
  lemma CapacityNeverRejects(c: Config, requests: Requests, owned: set<ReqId>, blocks: Blocks, ids: seq<ReqId>, id: ReqId)
    requires ValidConfig(c) && id in ids
    requires forall x | x in ids :: x in requests && Ready(c, requests[x], x in owned, blocks(x))
    requires Admissible(c, requests[id]) && requests[id].computed >= 1
    ensures var q, steps := requests[id], EpochSteps(c, requests, ids);
            0 <= q.computed - 1 && q.computed - 1 + steps <= c.capacity
  {
    StepsWithinBudgets(c, requests, ids);
  }

  /** Without the admission bound it can fire: a request that has filled the capacity with budget left. */
  lemma CapacityCanReject()
    ensures var q := Request(1, [0, 0, 0, 0, 0, 0, 0, 0, 0], 9, 20, 1, true);
            && Ready(Config(8, 8), q, true, [[0]]) && !Admissible(Config(8, 8), q)
            && !Fits(Config(8, 8), q, EpochSteps(Config(8, 8), map["a" := q], ["a"]), [[0]])
  {
    var requests := map["a" := Request(1, [0, 0, 0, 0, 0, 0, 0, 0, 0], 9, 20, 1, true)];
    StepsWithinBudgets(Config(8, 8), requests, ["a"]);
  }

  // ----- progress

  function TotalRemaining(requests: Requests, ids: seq<ReqId>): int
    requires forall id | id in ids :: id in requests
  {
    if ids == [] then 0
    else TotalRemaining(requests, ids[..|ids| - 1]) + Remaining(requests[ids[|ids| - 1]])
  }

  /** Each member has got at least one token, and no more than the epoch has steps. */
  ghost predicate Progressed(requests: Requests, after: Requests, ids: seq<ReqId>, steps: int) {
    forall id | id in ids ::
      && id in requests && id in after
      && after[id].prompt == requests[id].prompt && after[id].maxTokens == requests[id].maxTokens
      && 1 <= |after[id].tokens| - |requests[id].tokens| <= steps
  }

  /** Every epoch strictly shrinks the cohort's total budget, and keeps every member's from going negative. */
  lemma {:induction false} BudgetShrinks(requests: Requests, after: Requests, ids: seq<ReqId>, steps: int)
    requires Progressed(requests, after, ids, steps)
    ensures TotalRemaining(after, ids) <= TotalRemaining(requests, ids) - |ids|
    ensures forall id | id in ids :: Remaining(requests[id]) - steps <= Remaining(after[id]) < Remaining(requests[id])
  {
    if ids != [] {
      BudgetShrinks(requests, after, ids[..|ids| - 1], steps);
      assert ids[|ids| - 1] in ids;
    }
  }

  // ----- how many epochs

  /** Epochs of a lone request with `remaining` tokens to go that never meets its EOS. */
  function Epochs(c: Config, remaining: nat): nat
    requires ValidConfig(c)
    decreases remaining
  {
    if remaining == 0 then 0
    else 1 + Epochs(c, remaining - LoneSteps(c, remaining))
  }

  /** The epoch length of a lone request. */
  function LoneSteps(c: Config, remaining: nat): (steps: int)
    requires ValidConfig(c) && remaining >= 1
    ensures 1 <= steps <= remaining
  {
    PowerWithin(if c.maxSteps < remaining then c.maxSteps else remaining)
  }

  lemma LoneRequest(c: Config, requests: Requests, id: ReqId)
    requires ValidConfig(c) && id in requests && Remaining(requests[id]) >= 1
    ensures EpochSteps(c, requests, [id]) == LoneSteps(c, Remaining(requests[id]))
  {
    assert [id][..0] == [];
  }

  function Popcount(n: nat): nat { if n == 0 then 0 else n % 2 + Popcount(n / 2) }

  lemma PopcountSmall()
    ensures Popcount(0) == 0 && Popcount(1) == 1 && Popcount(2) == 1 && Popcount(3) == 2
    ensures Popcount(4) == 1 && Popcount(5) == 2 && Popcount(6) == 2 && Popcount(7) == 3
  {
    assert Popcount(0) == 0;
    assert Popcount(1) == 1;
    assert Popcount(2) == 1;
    assert Popcount(3) == 2;
  }

  lemma Divide(r: nat, m: nat)
    requires m in {1, 2, 4, 8} && r >= m
    ensures r / m == (r - m) / m + 1 && r % m == (r - m) % m
  {
    if m == 2 {
      assert r / 2 == (r - 2) / 2 + 1;
    } else if m == 4 {
      assert r / 4 == (r - 4) / 4 + 1;
    } else if m == 8 {
      assert r / 8 == (r - 8) / 8 + 1;
    }
  }

  /** Clearing the highest bit of a number below eight. */
  lemma HighestBit(n: nat)
    requires 1 <= n < 8
    ensures Popcount(n) == 1 + Popcount(n - PowerWithin(n))
  {
    PopcountSmall();
  }

  lemma SmallQuotient(n: nat, m: nat)
    requires n < m
    ensures n / m == 0 && n % m == n
  {
  }

  /** Below the maximum every bit is one epoch. */
  lemma {:induction false} RestEpochs(c: Config, rest: nat)
    requires ValidConfig(c) && rest < c.maxSteps
    ensures Epochs(c, rest) == Popcount(rest)
  {
    if rest > 0 {
      RestEpochs(c, rest - LoneSteps(c, rest));
      HighestBit(rest);
    }
  }

  /** A lone request takes as many epochs as whole maxima fit, and one for every bit of the rest. */
  lemma {:induction false} LoneEpochs(c: Config, remaining: nat)
    requires ValidConfig(c)
    ensures Epochs(c, remaining) == remaining / c.maxSteps + Popcount(remaining % c.maxSteps)
    decreases remaining
  {
    var m := c.maxSteps;
    if remaining < m {
      RestEpochs(c, remaining);
      SmallQuotient(remaining, m);
    } else {
      assert LoneSteps(c, remaining) == m;
      LoneEpochs(c, remaining - m);
      Divide(remaining, m);
    }
  }
}
