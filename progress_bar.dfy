/**
  The doubling progress counter (src/progress_bar.rs). It counts received chunks toward
  a maximum that doubles whenever the count reaches it, so the bar falls back to halfway
  and then fills at half its former speed; `dec` undoes a step and halves the maximum
  again once the count is back at or below half of it.

  Only the two counters are modelled; the terminal progress bar they drive is not.
*/
module ProgressBar {

  const STARTING_MAX: nat := 50
  /** The counters are `u64`s. */
  const U64_LIMIT: nat := 0x1_0000_0000_0000_0000

  /** The two counters, as a value. */
  datatype Counters = Counters(currentProgress: nat, maxValue: nat)

  /** The state every operation keeps: a positive maximum, the count within it, both `u64`s. */
  predicate Inv(c: Counters) {
    1 <= c.maxValue < U64_LIMIT && c.currentProgress <= c.maxValue
  }

  const Start: Counters := Counters(0, STARTING_MAX)

  /** `inc`: one more step; the maximum doubles when the count reaches it. */
  function Incremented(c: Counters): Counters
  {
    var p := c.currentProgress + 1;
    if p >= c.maxValue then Counters(p, c.maxValue * 2) else Counters(p, c.maxValue)
  }

  /** `dec`: one step back, except at 0; the maximum halves (but stays at least 1) once the count is at or below its half. */
  function Decremented(c: Counters): Counters
  {
    if c.currentProgress == 0 then c
    else
      var p := c.currentProgress - 1;
      if p <= c.maxValue / 2 then Counters(p, if c.maxValue / 2 < 1 then 1 else c.maxValue / 2)
      else Counters(p, c.maxValue)
  }

  /** `inc` keeps the invariant as long as doubling cannot overflow a `u64`. */
  lemma IncKeepsInv(c: Counters)
    requires Inv(c) && c.maxValue < U64_LIMIT / 2
    ensures Inv(Incremented(c))
  {
  }

  /** When `inc` reaches the end of a bar it was not already at, the count lands halfway along the new bar. */
  lemma IncAtEndLandsHalfway(c: Counters)
    requires Inv(c) && c.currentProgress < c.maxValue
    requires c.currentProgress + 1 >= c.maxValue
    ensures 2 * Incremented(c).currentProgress == Incremented(c).maxValue
  {
  }

  /**
    `dec` can leave a full bar: from `k + 1` out of `2k` it steps to `k` out of `k`, and `inc`
    from there doubles the maximum to `2k` with the count at `k + 1`, which is not halfway;
    for `k == 1` the bar stays full.
  */
  lemma IncAfterDecMissesHalfway(k: nat)
    requires 1 <= k < U64_LIMIT / 2
    ensures Inv(Counters(k + 1, 2 * k)) && Decremented(Counters(k + 1, 2 * k)) == Counters(k, k)
    ensures var c := Incremented(Counters(k, k));
            c.currentProgress >= Counters(k, k).maxValue && 2 * c.currentProgress != c.maxValue
    ensures k == 1 ==> Incremented(Counters(1, 1)) == Counters(2, 2)
  {
  }

  /** The full bar of one step is reachable: six steps from the start, then five steps back. */
  lemma FullBarReachable()
    ensures Incs(6) == Counters(6, 50)
    ensures Decremented(Decremented(Decremented(Decremented(Decremented(Incs(6)))))) == Counters(1, 1)
    ensures Incremented(Counters(1, 1)) == Counters(2, 2)
  {
    assert Incs(1) == Counters(1, 50);
    assert Incs(2) == Counters(2, 50);
    assert Incs(3) == Counters(3, 50);
    assert Incs(4) == Counters(4, 50);
    assert Incs(5) == Counters(5, 50);
    assert Decremented(Counters(6, 50)) == Counters(5, 25);
    assert Decremented(Counters(5, 25)) == Counters(4, 12);
    assert Decremented(Counters(4, 12)) == Counters(3, 6);
    assert Decremented(Counters(3, 6)) == Counters(2, 3);
  }

  /** `inc` as its doc comment describes it: on reaching the end, the new maximum is twice the count. */
  function IncrementedToHalf(c: Counters): Counters
  {
    var p := c.currentProgress + 1;
    if p >= c.maxValue then Counters(p, p * 2) else Counters(p, c.maxValue)
  }

  /** The described `inc` lands exactly halfway whenever it reaches the end, and never leaves a full bar. */
  lemma IncrementedToHalfLandsHalfway(c: Counters)
    requires Inv(c) && c.currentProgress + 1 < U64_LIMIT / 2
    ensures Inv(IncrementedToHalf(c))
    ensures IncrementedToHalf(c).currentProgress == c.currentProgress + 1
    ensures IncrementedToHalf(c).currentProgress < IncrementedToHalf(c).maxValue
    ensures c.currentProgress + 1 >= c.maxValue ==>
              2 * IncrementedToHalf(c).currentProgress == IncrementedToHalf(c).maxValue
    ensures c.currentProgress + 1 < c.maxValue ==> IncrementedToHalf(c).maxValue == c.maxValue
  {
  }

  /** On a bar that is not full, as every bar reached by `inc` alone is, the two agree. */
  lemma IncrementedToHalfAgrees(c: Counters)
    requires Inv(c) && c.currentProgress < c.maxValue
    ensures IncrementedToHalf(c) == Incremented(c)
  {
  }

  /** `dec` keeps the invariant. */
  lemma DecKeepsInv(c: Counters)
    requires Inv(c)
    ensures Inv(Decremented(c))
    ensures c.currentProgress == 0 ==> Decremented(c) == c
    ensures c.currentProgress > 0 ==> Decremented(c).currentProgress == c.currentProgress - 1
  {
  }

  /** `n` calls of `inc` from the starting state. */
  function Incs(n: nat): Counters
  {
    if n == 0 then Start else Incremented(Incs(n - 1))
  }

  /** `m` is `STARTING_MAX` times a power of two. */
  predicate DoubledStart(m: nat)
    decreases m
  {
    m == STARTING_MAX || (m > STARTING_MAX && m % 2 == 0 && DoubledStart(m / 2))
  }

  /**
    After `n` steps from the start the count is `n` and the maximum is the least
    `STARTING_MAX * 2^k` that exceeds `n`.
  */
  lemma {:induction false} IncsFromStart(n: nat)
    ensures Incs(n).currentProgress == n
    ensures n < Incs(n).maxValue
    ensures DoubledStart(Incs(n).maxValue)
    ensures Incs(n).maxValue == STARTING_MAX || Incs(n).maxValue <= 2 * n
  {
    if n > 0 {
      IncsFromStart(n - 1);
      var c := Incs(n - 1);
      if n >= c.maxValue {
        assert (2 * c.maxValue) / 2 == c.maxValue;
      }
    }
  }

  /** The counters a progress bar shows. */
  class DoublingProgressBar {
    var currentProgress: nat
    var maxValue: nat

    function State(): Counters
      reads this
    {
      Counters(currentProgress, maxValue)
    }

    ghost predicate Valid()
      reads this
    {
      Inv(State())
    }

    /** `new` / `initialize`: an empty bar of length `STARTING_MAX`. */
    constructor (name: string)
      ensures Valid()
      ensures State() == Start
    {
      currentProgress := 0;
      maxValue := STARTING_MAX;
    }

    method Inc()
      requires Valid() && maxValue < U64_LIMIT / 2
      modifies this
      ensures Valid()
      ensures State() == Incremented(old(State()))
      ensures currentProgress == old(currentProgress) + 1
      ensures maxValue == if currentProgress >= old(maxValue) then 2 * old(maxValue) else old(maxValue)
    {
      currentProgress := currentProgress + 1;
      if currentProgress >= maxValue {
        maxValue := maxValue * 2;
      }
    }

    method Dec()
      requires Valid()
      modifies this
      ensures Valid()
      ensures State() == Decremented(old(State()))
      ensures old(currentProgress) == 0 ==> State() == old(State())
      ensures old(currentProgress) > 0 ==> currentProgress == old(currentProgress) - 1
    {
      if currentProgress == 0 {
        return;
      }
      currentProgress := currentProgress - 1;
      if currentProgress <= maxValue / 2 {
        maxValue := maxValue / 2;
        maxValue := if maxValue < 1 then 1 else maxValue;
      }
    }

    /** `reset_to_zero`: back to the starting state, whatever the state was. */
    method ResetToZero()
      modifies this
      ensures Valid()
      ensures State() == Start
    {
      currentProgress := 0;
      maxValue := STARTING_MAX;
    }
  }
}
