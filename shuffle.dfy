/** The in-place Fisher-Yates shuffle over an int array. The random
    generator is modelled by a nondeterministic choice in [0, index]; the
    choices made are handed back as a ghost history of draws, so the result
    can be stated exactly as a function of the input and those draws. */
module CustomExtentions {

  /** Exchanges positions i and j (nothing changes when i == j). */
  function Swap(s: seq<int>, i: nat, j: nat): (r: seq<int>)
    requires i < |s| && j < |s|
    ensures |r| == |s| && r[i] == s[j] && r[j] == s[i]
    ensures forall k :: 0 <= k < |s| && k != i && k != j ==> r[k] == s[k]
  {
    s[i := s[j]][j := s[i]]
  }

  /** A swap only rearranges elements. */
  lemma SwapMultiset(s: seq<int>, i: nat, j: nat)
    requires i < |s| && j < |s|
    ensures multiset(Swap(s, i, j)) == multiset(s)
  {
  }

  /** Number of loop iterations for an array of length n: index runs from
      n - 1 down to 1. */
  function StepCount(n: int): nat
  {
    if n > 1 then n - 1 else 0
  }

  /** The position step j works on: the loop's index at that iteration. */
  function StepPosition(n: int, j: nat): int
  {
    n - 1 - j
  }

  /** A history of draws for an array of length n: at most StepCount(n) of
      them, step j's draw lying in [0, StepPosition(n, j)]. */
  ghost predicate ValidDraws(n: int, draws: seq<int>)
  {
    && |draws| <= StepCount(n)
    && forall j :: 0 <= j < |draws| ==> 0 <= draws[j] <= StepPosition(n, j)
  }

  /** The array after the first |draws| iterations of the loop: step j swaps
      position n - 1 - j with position draws[j]. */
  function Steps(s: seq<int>, draws: seq<int>): (r: seq<int>)
    requires ValidDraws(|s|, draws)
    ensures |r| == |s|
    decreases |draws|
  {
    if draws == [] then s
    else
      var j := |draws| - 1;
      assert ValidDraws(|s|, draws[..j]);
      Swap(Steps(s, draws[..j]), StepPosition(|s|, j), draws[j])
  }

  /** The shuffle only permutes the array: every element keeps its multiplicity. */
  lemma {:induction false} StepsPermute(s: seq<int>, draws: seq<int>)
    requires ValidDraws(|s|, draws)
    ensures multiset(Steps(s, draws)) == multiset(s)
  {
    if draws != [] {
      var j := |draws| - 1;
      assert ValidDraws(|s|, draws[..j]);
      StepsPermute(s, draws[..j]);
      SwapMultiset(Steps(s, draws[..j]), StepPosition(|s|, j), draws[j]);
    }
  }

  /** Once the iteration for position p is over, position p is never touched
      again: after the first k steps the last k positions hold their final
      values. */
  lemma {:induction false} StepsSettle(s: seq<int>, draws: seq<int>, k: nat)
    requires ValidDraws(|s|, draws)
    requires k <= |draws|
    ensures ValidDraws(|s|, draws[..k])
    ensures forall q :: |s| - k <= q < |s| ==> Steps(s, draws)[q] == Steps(s, draws[..k])[q]
  {
    assert ValidDraws(|s|, draws[..k]);
    if k < |draws| {
      var j := |draws| - 1;
      assert ValidDraws(|s|, draws[..j]);
      StepsSettle(s, draws[..j], k);
      assert draws[..j][..k] == draws[..k];
    } else {
      assert draws[..k] == draws;
    }
  }

  /** One more iteration: the new draw is recorded and its swap applied. */
  lemma StepsNext(s: seq<int>, draws: seq<int>, r: int)
    requires ValidDraws(|s|, draws) && |draws| < StepCount(|s|)
    requires 0 <= r <= StepPosition(|s|, |draws|)
    ensures ValidDraws(|s|, draws + [r])
    ensures Steps(s, draws + [r]) == Swap(Steps(s, draws), StepPosition(|s|, |draws|), r)
  {
    assert (draws + [r])[..|draws|] == draws;
  }

  /** Fisher-Yates shuffle in place: for index from the last position down
      to 1, swap it with a position drawn from [0, index]. */
  method Shuffle(input: array<int>) returns (ghost draws: seq<int>)
    modifies input
    ensures ValidDraws(input.Length, draws) && |draws| == StepCount(input.Length)
    ensures input[..] == Steps(old(input[..]), draws)
    ensures multiset(input[..]) == multiset(old(input[..]))
    ensures input.Length <= 1 ==> input[..] == old(input[..])
  {
    var length := input.Length;
    draws := [];
    var index := length - 1;
    while index > 0
      invariant -1 <= index && index == length - 1 - |draws|
      invariant ValidDraws(length, draws)
      invariant input[..] == Steps(old(input[..]), draws)
    {
      var randomIndex :| 0 <= randomIndex <= index;
      ghost var before := input[..];
      input[index], input[randomIndex] := input[randomIndex], input[index];
      assert input[..] == Swap(before, index, randomIndex);
      StepsNext(old(input[..]), draws, randomIndex);
      draws := draws + [randomIndex];
      index := index - 1;
    }
    StepsPermute(old(input[..]), draws);
  }
}
