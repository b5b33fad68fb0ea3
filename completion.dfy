/**
 * The completion arithmetic shared by the empathy and reasoning stages:
 * count how many of the stage's three conditions hold and turn the count
 * into a whole percentage.
 */
module Completion {

  /** Every stage that reports progress checks three conditions. */
  const Total: nat := 3

  /** The number of conditions that hold: the value the `completed` counter reaches. */
  function CountHolding(conds: seq<bool>): (n: nat)
    ensures n <= |conds|
    ensures n == |conds| <==> forall i :: 0 <= i < |conds| ==> conds[i]
    ensures n == 0 <==> forall i :: 0 <= i < |conds| ==> !conds[i]
  {
    if conds == [] then 0
    else
      assert conds == [conds[0]] + conds[1..];
      (if conds[0] then 1 else 0) + CountHolding(conds[1..])
  }

  /** Counting three conditions is bumping a counter once per condition that holds. */
  lemma CountThree(a: bool, b: bool, c: bool)
    ensures CountHolding([a, b, c]) == (if a then 1 else 0) + (if b then 1 else 0) + (if c then 1 else 0)
  {
    assert [a, b, c][1..] == [b, c];
    assert [b, c][1..] == [c];
    assert [c][1..] == [];
    assert CountHolding([c]) == (if c then 1 else 0) + CountHolding([]);
    assert CountHolding([b, c]) == (if b then 1 else 0) + CountHolding([c]);
  }

  /** The count is the number of `true` entries, whatever the order of the conditions. */
  lemma {:induction false} CountIsMultiplicity(conds: seq<bool>)
    ensures CountHolding(conds) == multiset(conds)[true]
  {
    if conds != [] {
      CountIsMultiplicity(conds[1..]);
      assert conds == [conds[0]] + conds[1..];
      assert multiset(conds) == multiset{conds[0]} + multiset(conds[1..]);
    }
  }

  /** At least two of three conditions hold. */
  predicate AtLeastTwo(a: bool, b: bool, c: bool) {
    (a && b) || (a && c) || (b && c)
  }

  /**
   * `Math.floor((completed / total) * 100)` for a count of at most three:
   * the largest whole percentage not above the exact ratio.
   */
  function Percentage(completed: nat): (p: nat)
    requires completed <= Total
    ensures p * 3 <= completed * 100 < (p + 1) * 3
    ensures p == 0 || p == 33 || p == 66 || p == 100
    ensures p >= 50 <==> completed >= 2
    ensures p == 100 <==> completed == Total
  {
    completed * 100 / Total
  }

  /** More conditions met never means a lower percentage. */
  lemma PercentageMonotone(a: nat, b: nat)
    requires a <= b <= Total
    ensures Percentage(a) <= Percentage(b)
  {
  }

  /** The percentage of three conditions reaches the 50 of the access gate iff at least two hold. */
  lemma ThreeConditionsGate(a: bool, b: bool, c: bool)
    ensures Percentage(CountHolding([a, b, c])) >= 50 <==> AtLeastTwo(a, b, c)
  {
    CountThree(a, b, c);
  }
}
