/** Small value-level helpers shared by the other modules. */
module Common {

  datatype Option<T> = None | Some(value: T)

  datatype Result<T, E> = Success(value: T) | Failure(error: E)

  /** `x` repeated `k` times. */
  function Repeat(x: int, k: nat): (r: seq<int>)
    ensures |r| == k
    ensures forall i :: 0 <= i < k ==> r[i] == x
  {
    if k == 0 then [] else Repeat(x, k - 1) + [x]
  }

  /** `Repeat(x, k)` holds `k` copies of `x` and nothing else. */
  lemma {:induction false} RepeatCount(x: int, k: nat, y: int)
    ensures multiset(Repeat(x, k))[y] == if y == x then k else 0
  {
    if k > 0 {
      RepeatCount(x, k - 1, y);
    }
  }

  /** The sequence read back to front: the order in which a stack hands out
      its elements when the sequence lists it bottom first. */
  function Reversed(s: seq<int>): (r: seq<int>)
    ensures |r| == |s|
    ensures forall i :: 0 <= i < |s| ==> r[i] == s[|s| - 1 - i]
  {
    if s == [] then [] else Reversed(s[1..]) + [s[0]]
  }

  /** Reading a sequence backwards keeps its elements. */
  lemma {:induction false} ReversedMultiset(s: seq<int>)
    ensures multiset(Reversed(s)) == multiset(s)
  {
    if s != [] {
      ReversedMultiset(s[1..]);
      assert s == [s[0]] + s[1..];
    }
  }
}
