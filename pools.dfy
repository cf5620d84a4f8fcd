/** What the rarity pool builder computes for one trait, as functions of the
    trait's variants and the collection size, and what those functions
    guarantee. The imperative builder itself is
    CollectionGenerator.PfpCollectionGenerator.CreateTraitIndices. */
module RarityPools {
  import opened Common
  import opened NftConfig

  function Max0(x: int): nat
  {
    if x > 0 then x else 0
  }

  /** Copies one variant asks for: floor(rarityPercent * size / 100). The
      divisor is positive, so Dafny's division is the floor. */
  function Copies(image: NftImage, size: int): (c: int)
    ensures 100 * c <= image.rarityPercent * size < 100 * c + 100
  {
    (image.rarityPercent * size) / 100
  }

  /** Effect of the inner loop for one variant: `count` copies of `index`
      are appended, except that the loop stops (for this variant only) at
      the moment the list reaches exactly `size` entries. */
  function AppendCopies(list: seq<int>, index: int, count: int, size: int): (r: seq<int>)
    ensures |list| <= |r| && r[..|list|] == list
    ensures forall j :: |list| <= j < |r| ==> r[j] == index
    ensures |r| == |list| + Max0(count) || (|list| < size && |r| == size < |list| + count)
    ensures count > 0 && |list| < size <= |list| + count ==> |r| == size
  {
    if count <= 0 then list
    else if |list| < size <= |list| + count then list + Repeat(index, size - |list|)
    else list + Repeat(index, count)
  }

  /** The list after every variant has had its turn, before any padding. */
  function Unpadded(images: seq<NftImage>, size: int): (r: seq<int>)
  {
    if images == [] then []
    else
      var n := |images| - 1;
      AppendCopies(Unpadded(images[..n], size), n, Copies(images[n], size), size)
  }

  /** Total number of copies the variants ask for. */
  function Requested(images: seq<NftImage>, size: int): nat
  {
    if images == [] then 0
    else
      var n := |images| - 1;
      Requested(images[..n], size) + Max0(Copies(images[n], size))
  }

  /** The sum of the variants' rarity percentages. */
  function RaritySum(images: seq<NftImage>): int
  {
    if images == [] then 0
    else RaritySum(images[..|images| - 1]) + images[|images| - 1].rarityPercent
  }

  /** Non-negative rarities ask for at most their share of the collection:
      100 * requested <= (sum of rarities) * size. */
  lemma {:induction false} RequestedBound(images: seq<NftImage>, size: nat)
    requires forall j :: 0 <= j < |images| ==> images[j].rarityPercent >= 0
    ensures 100 * Requested(images, size) <= RaritySum(images) * size
  {
    if images != [] {
      var n := |images| - 1;
      var r := images[n].rarityPercent;
      RequestedBound(images[..n], size);
      var c := Copies(images[n], size);
      assert r * size >= 0;
      assert 100 * Max0(c) <= r * size;
      assert RaritySum(images) * size == RaritySum(images[..n]) * size + r * size;
    }
  }

  /** Rarities that are non-negative and add up to at most 100 % never ask
      for more copies than the collection has items. */
  lemma RaritiesFit(images: seq<NftImage>, size: nat)
    requires forall j :: 0 <= j < |images| ==> images[j].rarityPercent >= 0
    requires RaritySum(images) <= 100
    ensures Requested(images, size) <= size
  {
    RequestedBound(images, size);
    ScaleBound(RaritySum(images), 100, size);
  }

  lemma ScaleBound(a: int, b: int, k: nat)
    requires a <= b
    ensures a * k <= b * k
  {
    assert b * k - a * k == (b - a) * k;
  }

  /** With a negative collection size no variant gets a copy and nothing is
      padded: the pool is empty. */
  lemma {:induction false} NegativeSizePool(images: seq<NftImage>, size: int)
    requires size < 0
    requires forall j :: 0 <= j < |images| ==> images[j].rarityPercent >= 0
    ensures Unpadded(images, size) == [] && TraitPool(images, size) == []
  {
    if images != [] {
      var n := |images| - 1;
      NegativeSizePool(images[..n], size);
      assert images[n].rarityPercent * size <= 0;
    }
  }

  /** The padding value: the index the LINQ Aggregate picks, which replaces
      its accumulator by the next variant unless the accumulator's rarity is
      strictly larger; -1 when there are no variants. */
  function IndexMax(images: seq<NftImage>): (r: int)
    ensures -1 <= r < |images|
    ensures r == -1 <==> images == []
  {
    if images == [] then -1
    else if |images| == 1 then 0
    else
      var n := |images| - 1;
      var a := IndexMax(images[..n]);
      if images[a].rarityPercent > images[n].rarityPercent then a else n
  }

  /** The pool the builder pushes for one trait: the unpadded list, padded
      with IndexMax up to `size` when shorter, kept as is when longer. */
  function TraitPool(images: seq<NftImage>, size: int): (r: seq<int>)
    ensures |r| >= size
  {
    var pre := Unpadded(images, size);
    if |pre| > size then pre
    else if |pre| < size then pre + Repeat(IndexMax(images), size - |pre|)
    else pre
  }

  /** The padding index is the LAST variant of maximal rarity. */
  lemma {:induction false} IndexMaxIsLastMaximum(images: seq<NftImage>)
    requires images != []
    ensures forall j :: 0 <= j < |images| ==>
      images[j].rarityPercent <= images[IndexMax(images)].rarityPercent
    ensures forall j :: IndexMax(images) < j < |images| ==>
      images[j].rarityPercent < images[IndexMax(images)].rarityPercent
  {
    if |images| > 1 {
      var n := |images| - 1;
      IndexMaxIsLastMaximum(images[..n]);
      assert forall j :: 0 <= j < n ==> images[..n][j] == images[j];
    }
  }

  /** Before padding, entries are variant indices in ascending variant order. */
  lemma {:induction false} UnpaddedOrdered(images: seq<NftImage>, size: int)
    ensures forall i, j :: 0 <= i <= j < |Unpadded(images, size)| ==>
      0 <= Unpadded(images, size)[i] <= Unpadded(images, size)[j] < |images|
  {
    if images != [] {
      var n := |images| - 1;
      UnpaddedOrdered(images[..n], size);
    }
  }

  /** The unpadded list never holds more than was asked for, and it holds
      everything that was asked for up to `size`: once the requests reach
      `size`, so does the list. */
  lemma {:induction false} UnpaddedLength(images: seq<NftImage>, size: int)
    ensures |Unpadded(images, size)| <= Requested(images, size)
    ensures (if Requested(images, size) <= size then Requested(images, size) else size)
            <= |Unpadded(images, size)|
  {
    if images != [] {
      var n := |images| - 1;
      UnpaddedLength(images[..n], size);
    }
  }

  /** When the copies fit (or the size is not positive), the inner loop
      appends all of them. */
  lemma AppendUncapped(list: seq<int>, index: int, count: int, size: int)
    requires size <= 0 || |list| + Max0(count) <= size
    ensures AppendCopies(list, index, count, size) == list + Repeat(index, Max0(count))
  {
    if count <= 0 {
      assert Repeat(index, 0) == [];
    }
  }

  /** When the requests fit (or the size is not positive, so the list can
      never reach it), each variant gets exactly its requested copies. */
  lemma {:induction false} UnpaddedUncapped(images: seq<NftImage>, size: int)
    requires size <= 0 || Requested(images, size) <= size
    ensures |Unpadded(images, size)| == Requested(images, size)
    ensures forall i ::
              multiset(Unpadded(images, size))[i] ==
              (if 0 <= i < |images| then Max0(Copies(images[i], size)) else 0)
  {
    if images != [] {
      var n := |images| - 1;
      var pre := Unpadded(images[..n], size);
      var copies := Max0(Copies(images[n], size));
      UnpaddedUncapped(images[..n], size);
      AppendUncapped(pre, n, Copies(images[n], size), size);
      assert Unpadded(images, size) == pre + Repeat(n, copies);
      forall i
        ensures multiset(Unpadded(images, size))[i] ==
          (if 0 <= i < |images| then Max0(Copies(images[i], size)) else 0)
      {
        CountOfConcat(pre, Repeat(n, copies), i);
        RepeatCount(n, copies, i);
        if 0 <= i < n {
          assert images[..n][i] == images[i];
        }
      }
    }
  }

  /** Final pool size: max(unpadded, size). With size >= 0 the pool has at
      least `size` entries, and exactly `size` when the requests fit. The
      first entries are the unpadded list, the rest are IndexMax. */
  lemma PoolShape(images: seq<NftImage>, size: int)
    ensures var pre := Unpadded(images, size);
      && |TraitPool(images, size)| == (if |pre| >= size then |pre| else size)
      && TraitPool(images, size)[..|pre|] == pre
      && forall j :: |pre| <= j < |TraitPool(images, size)| ==> TraitPool(images, size)[j] == IndexMax(images)
    ensures size >= 0 ==> |TraitPool(images, size)| >= size
    ensures 0 <= size && Requested(images, size) <= size ==> |TraitPool(images, size)| == size
  {
    UnpaddedLength(images, size);
  }

  /** With at least one variant every pool entry is a valid variant index;
      with none, a positive size gives a pool of -1 entries. */
  lemma PoolEntries(images: seq<NftImage>, size: int)
    ensures images != [] ==> forall j :: 0 <= j < |TraitPool(images, size)| ==>
      0 <= TraitPool(images, size)[j] < |images|
    ensures images == [] ==> TraitPool(images, size) == Repeat(-1, Max0(size))
  {
    UnpaddedOrdered(images, size);
    PoolShape(images, size);
  }

  /** When the requests fit in `size`, the pool holds exactly the requested
      copies of each variant, plus the shortfall as copies of IndexMax. */
  lemma PoolCounts(images: seq<NftImage>, size: int, i: int)
    requires 0 <= size && Requested(images, size) <= size
    ensures multiset(TraitPool(images, size))[i] ==
      (if 0 <= i < |images| then Max0(Copies(images[i], size)) else 0)
      + (if i == IndexMax(images) then size - Requested(images, size) else 0)
  {
    UnpaddedUncapped(images, size);
    var pre := Unpadded(images, size);
    var k := size - Requested(images, size);
    PaddedPool(images, size);
    CountOfConcat(pre, Repeat(IndexMax(images), k), i);
    RepeatCount(IndexMax(images), k, i);
  }

  /** With requests that fit, the pool is the unpadded list plus the shortfall. */
  lemma PaddedPool(images: seq<NftImage>, size: int)
    requires 0 <= size && Requested(images, size) <= size
    ensures TraitPool(images, size) == Unpadded(images, size) + Repeat(IndexMax(images), size - Requested(images, size))
  {
    UnpaddedUncapped(images, size);
  }

  lemma CountOfConcat(a: seq<int>, b: seq<int>, i: int)
    ensures multiset(a + b)[i] == multiset(a)[i] + multiset(b)[i]
  {
    assert multiset(a + b) == multiset(a) + multiset(b);
  }

  /** Rarities 50 and 40 for ten items: five copies of variant 0, four of
      variant 1, and the missing one padded with variant 0. */
  lemma ShortfallExample()
    ensures TraitPool([NftImage(50, "a"), NftImage(40, "b")], 10) == [0, 0, 0, 0, 0, 1, 1, 1, 1, 0]
  {
    var images := [NftImage(50, "a"), NftImage(40, "b")];
    assert Repeat(0, 5) == [0, 0, 0, 0, 0] by {
      assert Repeat(0, 2) == [0, 0];
      assert Repeat(0, 4) == [0, 0, 0, 0];
    }
    assert Repeat(1, 4) == [1, 1, 1, 1] by {
      assert Repeat(1, 2) == [1, 1];
    }
    assert Copies(images[0], 10) == 5 && Copies(images[1], 10) == 4;
    var one := images[..1];
    assert one[..0] == [] && one[0] == images[0];
    assert Unpadded(one, 10) == AppendCopies([], 0, 5, 10);
    assert AppendCopies([], 0, 5, 10) == [] + Repeat(0, 5);
    var first := Unpadded(one, 10);
    assert first == [0, 0, 0, 0, 0];
    assert images[..|images| - 1] == one;
    var pre := Unpadded(images, 10);
    assert pre == AppendCopies(first, 1, 4, 10) == first + Repeat(1, 4);
    assert pre == [0, 0, 0, 0, 0, 1, 1, 1, 1];
    assert IndexMax(images) == 0;
    assert TraitPool(images, 10) == pre + Repeat(0, 1);
  }

  /** Rarities 100 and 50 for two items: variant 0 fills the list, which
      stops variant 0's loop only, so variant 1 still adds its copy and the
      pool ends up longer than the collection. */
  lemma OversizedExample()
    ensures TraitPool([NftImage(100, "a"), NftImage(50, "b")], 2) == [0, 0, 1]
  {
    var images := [NftImage(100, "a"), NftImage(50, "b")];
    assert Repeat(0, 2) == [0, 0] && Repeat(1, 1) == [1];
    assert Copies(images[0], 2) == 2 && Copies(images[1], 2) == 1;
    var one := images[..1];
    assert one[..0] == [] && one[0] == images[0];
    assert Unpadded(one, 2) == AppendCopies([], 0, 2, 2) == [0, 0];
    assert images[..|images| - 1] == one;
    assert Unpadded(images, 2) == AppendCopies([0, 0], 1, 1, 2) == [0, 0, 1];
  }

  /** Rarities 50 and 100 for two items: variant 1 asks for two copies, but
      the list reaches the size after one, so the `break` drops the other. */
  lemma BreakCutsExample()
    ensures TraitPool([NftImage(50, "a"), NftImage(100, "b")], 2) == [0, 1]
  {
    var images := [NftImage(50, "a"), NftImage(100, "b")];
    assert Repeat(0, 1) == [0] && Repeat(1, 1) == [1];
    assert Copies(images[0], 2) == 1 && Copies(images[1], 2) == 2;
    var one := images[..1];
    assert one[..0] == [] && one[0] == images[0];
    assert Unpadded(one, 2) == AppendCopies([], 0, 1, 2) == [0];
    assert images[..|images| - 1] == one;
    assert Unpadded(images, 2) == AppendCopies([0], 1, 2, 2) == [0, 1];
  }

  /** Rarities 150, -100 and 50 sum to 100, yet for ten items variant 0
      fills the list (the `break` drops five of its fifteen copies), variant
      1 asks for none, and variant 2 appends all five of its copies because
      the list is already past the size: the pool is oversized. */
  lemma NegativeRarityExample()
    ensures RaritySum([NftImage(150, "a"), NftImage(-100, "b"), NftImage(50, "c")]) == 100
    ensures TraitPool([NftImage(150, "a"), NftImage(-100, "b"), NftImage(50, "c")], 10)
            == [0, 0, 0, 0, 0, 0, 0, 0, 0, 0, 2, 2, 2, 2, 2]
  {
    var images := [NftImage(150, "a"), NftImage(-100, "b"), NftImage(50, "c")];
    assert Repeat(0, 10) == [0, 0, 0, 0, 0, 0, 0, 0, 0, 0] by {
      assert Repeat(0, 2) == [0, 0];
      assert Repeat(0, 5) == [0, 0, 0, 0, 0];
    }
    assert Repeat(2, 5) == [2, 2, 2, 2, 2] by {
      assert Repeat(2, 2) == [2, 2];
    }
    assert Copies(images[0], 10) == 15 && Copies(images[1], 10) == -10 && Copies(images[2], 10) == 5;
    var one := images[..1];
    var two := images[..2];
    assert one[..0] == [] && one[0] == images[0];
    assert two[..1] == one && two[1] == images[1];
    assert images[..2] == two;
    assert RaritySum(one) == 150 && RaritySum(two) == 50;
    var first := Unpadded(one, 10);
    assert Unpadded(one[..0], 10) == [] && Copies(one[0], 10) == 15;
    assert first == AppendCopies([], 0, 15, 10);
    assert AppendCopies([], 0, 15, 10) == [] + Repeat(0, 10);
    assert first == Repeat(0, 10);
    assert Unpadded(two, 10) == AppendCopies(first, 1, -10, 10) == first;
    assert Unpadded(images, 10) == AppendCopies(first, 2, 5, 10) == first + Repeat(2, 5);
  }
}
