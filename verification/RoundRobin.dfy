/** Round-robin routing of prompts over a hub's active agents. */
module RoundRobin {

  class PromptRouter {
    var rrCounters: map<string, nat>

    constructor ()
      ensures rrCounters == map[]
    {
      rrCounters := map[];
    }

    /** Which of the `n` candidates, in the order the query returns them, gets the prompt. */
    method Select(hub: string, n: nat) returns (idx: nat)
      requires n > 0
      modifies this
      ensures idx == Pick(if hub in old(rrCounters) then old(rrCounters)[hub] else 0, n)
      ensures rrCounters == old(rrCounters)[hub := idx + 1]
    {
      var counter := if hub in rrCounters then rrCounters[hub] else 0;
      idx := counter % n;
      rrCounters := rrCounters[hub := idx + 1];
    }
  }

  function Pick(counter: nat, n: nat): nat
    requires n > 0
  {
    counter % n
  }

  /** How often candidate `i` is picked in the next `k` calls for a hub with `n` candidates. */
  function Picked(counter: nat, n: nat, k: nat, i: nat): nat
    requires n > 0
    decreases k
  {
    if k == 0 then 0
    else (if Pick(counter, n) == i then 1 else 0) + Picked(Pick(counter, n) + 1, n, k - 1, i)
  }

  /** How many calls pass before candidate `i` is picked. */
  function Wait(counter: nat, n: nat, i: nat): nat
    requires i < n
  {
    if i >= Pick(counter, n) then i - Pick(counter, n) else i + n - Pick(counter, n)
  }

  lemma NextWait(counter: nat, n: nat, i: nat)
    requires i < n
    ensures Wait(Pick(counter, n) + 1, n, i) == if Wait(counter, n, i) == 0 then n - 1 else Wait(counter, n, i) - 1
  {
    var c := Pick(counter, n);
    assert Pick(c + 1, n) == if c + 1 == n then 0 else c + 1 by { Small(c + 1, n); }
  }

  lemma Small(a: nat, n: nat)
    requires n > 0 && a <= n
    ensures a % n == if a == n then 0 else a
  {
  }

  /** Whole rounds of `n` in `a` calls. */
  function Rounds(a: nat, n: nat): nat
    requires n > 0
  {
    if a < n then 0 else 1 + Rounds(a - n, n)
  }

  /** Whatever the counter was left at, a candidate is picked after its wait and then once every `n`
      calls. */
  lemma {:induction false} PickedEveryRound(counter: nat, n: nat, k: nat, i: nat)
    requires i < n
    ensures var d := Wait(counter, n, i);
      Picked(counter, n, k, i) == if k <= d then 0 else 1 + Rounds(k - 1 - d, n)
    decreases k
  {
    if k > 0 {
      var d := Wait(counter, n, i);
      PickedEveryRound(Pick(counter, n) + 1, n, k - 1, i);
      NextWait(counter, n, i);
    }
  }

  /** The counter after `k` calls. */
  function CounterAfter(counter: nat, n: nat, k: nat): nat
    requires n > 0
  {
    if k == 0 then counter else Pick(CounterAfter(counter, n, k - 1), n) + 1
  }

  /** The candidates take turns: call number `k` (from 0) gets the candidate that is left of `counter + k`
      after whole rounds of `n`. */
  lemma {:induction false} TakingTurns(counter: nat, n: nat, k: nat) returns (rounds: nat)
    requires n > 0
    ensures var i := Pick(CounterAfter(counter, n, k), n);
      i < n && counter + k == rounds * n + i
  {
    hide Pick;
    if k == 0 {
      rounds := FirstTurn(counter, n);
    } else {
      var i := Pick(CounterAfter(counter, n, k - 1), n);
      var before := TakingTurns(counter, n, k - 1);
      NextPick(i + 1, n);
      rounds := if i + 1 == n then before + 1 else before;
      if i + 1 == n { OneRound(before, n); }
    }
  }

  lemma FirstTurn(counter: nat, n: nat) returns (rounds: nat)
    requires n > 0
    ensures Pick(counter, n) < n && counter == rounds * n + Pick(counter, n)
  {
    rounds := counter / n;
  }

  lemma NextPick(a: nat, n: nat)
    requires n > 0 && a <= n
    ensures Pick(a, n) == if a == n then 0 else a
  {
    Small(a, n);
  }

  lemma OneRound(q: nat, n: nat)
    ensures (q + 1) * n == q * n + n
  {
  }

  /** Fairness: over any number of calls no two candidates differ by more than one. */
  lemma Fair(counter: nat, n: nat, k: nat, i: nat, j: nat)
    requires i < n && j < n
    ensures Picked(counter, n, k, i) <= Picked(counter, n, k, j) + 1
  {
    PickedEveryRound(counter, n, k, i);
    PickedEveryRound(counter, n, k, j);
    var d, e := Wait(counter, n, i), Wait(counter, n, j);
    if k > d { RoundsMonotone(k - 1 - d, if k > e then k - 1 - e + n else n - 1, n); }
  }

  lemma {:induction false} RoundsMonotone(a: nat, b: nat, n: nat)
    requires n > 0 && a <= b
    ensures Rounds(a, n) <= Rounds(b, n)
  {
    if a >= n { RoundsMonotone(a - n, b - n, n); }
  }
}
