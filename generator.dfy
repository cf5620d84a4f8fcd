/** The generation engine: building one rarity pool per trait, shuffling the
    pools, drawing one variant per trait for each item of the collection,
    and turning stored items back into metadata attributes.

    Each trait pool is a stack of variant indices, modelled as a sequence
    listed bottom first: Pop takes the last element, a stack built from a
    list keeps the list's order, and ToArray reads it back to front. */
module CollectionGenerator {
  import opened Common
  import opened NftConfig
  import opened CustomExtentions
  import opened RarityPools
  import opened PfpIds
  import opened MetadataGenerator

  /** One generated item: a variant index per trait slot (-1: slot unused),
      its unique id and its file name. */
  class Pfp {
    var fileName: string
    var pftImageIndices: seq<int>
    var uniqueId: string

    /** A fresh item with `traitCount` slots, all unused. The C# constructor
        leaves the name and the id null; "" stands for that unset value. */
    constructor (traitCount: nat)
      ensures |pftImageIndices| == traitCount
      ensures forall i :: 0 <= i < traitCount ==> pftImageIndices[i] == -1
      ensures fileName == "" && uniqueId == ""
    {
      var indices: seq<int> := [];
      var i := 0;
      while i < traitCount
        invariant 0 <= i <= traitCount
        invariant |indices| == i
        invariant forall j :: 0 <= j < i ==> indices[j] == -1
      {
        indices := indices + [-1];
        i := i + 1;
      }
      pftImageIndices := indices;
      fileName := "";
      uniqueId := "";
    }

    method UpdateParameters(uId: string, name: string)
      modifies this`fileName, this`uniqueId
      ensures uniqueId == uId && fileName == name
    {
      fileName := name;
      uniqueId := uId;
    }
  }

  /** A choice of one variant for each of the first |combo| traits. */
  predicate ValidCombo(layers: NftLayers, combo: seq<int>)
  {
    && |combo| <= |layers.nftTraits|
    && forall t :: 0 <= t < |combo| ==> 0 <= combo[t] < |layers.nftTraits[t].nftImages|
  }

  /** The names of the chosen variants, trait by trait. */
  function ImageNames(layers: NftLayers, combo: seq<int>): (names: seq<string>)
    requires ValidCombo(layers, combo)
    ensures |names| == |combo|
    ensures forall t :: 0 <= t < |combo| ==> names[t] == layers.nftTraits[t].nftImages[combo[t]].name
  {
    seq(|combo|, t requires 0 <= t < |combo| => layers.nftTraits[t].nftImages[combo[t]].name)
  }

  /** One pool per trait, as the builder produces them. */
  function TraitPools(layers: NftLayers, size: int): (pools: seq<seq<int>>)
    ensures |pools| == |layers.nftTraits|
    ensures forall t :: 0 <= t < |pools| ==> pools[t] == TraitPool(layers.nftTraits[t].nftImages, size)
  {
    seq(|layers.nftTraits|, t requires 0 <= t < |layers.nftTraits| => TraitPool(layers.nftTraits[t].nftImages, size))
  }

  /** Pools from which `size` items can be drawn: one per trait, each with
      at least `size` entries, every entry a variant of its trait. */
  ghost predicate PoolsReady(layers: NftLayers, pools: seq<seq<int>>, size: nat)
  {
    && |pools| == |layers.nftTraits|
    && forall t :: 0 <= t < |pools| ==>
         && |pools[t]| >= size
         && forall j :: 0 <= j < |pools[t]| ==> 0 <= pools[t][j] < |layers.nftTraits[t].nftImages|
  }

  /** The k-th draw (from 0): the entry of every pool k places below its top. */
  function Draw(pools: seq<seq<int>>, k: nat): (combo: seq<int>)
    requires forall t :: 0 <= t < |pools| ==> k < |pools[t]|
    ensures |combo| == |pools|
    ensures forall t :: 0 <= t < |pools| ==> combo[t] == pools[t][|pools[t]| - 1 - k]
  {
    seq(|pools|, t requires 0 <= t < |pools| => pools[t][|pools[t]| - 1 - k])
  }

  /** The pools with their top entry popped. */
  function Popped(pools: seq<seq<int>>): (rest: seq<seq<int>>)
    requires forall t :: 0 <= t < |pools| ==> pools[t] != []
    ensures |rest| == |pools|
    ensures forall t :: 0 <= t < |pools| ==> rest[t] == pools[t][..|pools[t]| - 1]
  {
    seq(|pools|, t requires 0 <= t < |pools| => pools[t][..|pools[t]| - 1])
  }

  /** Slot t of every item, in item order. */
  function Column(combos: seq<seq<int>>, t: nat): (col: seq<int>)
    requires forall k :: 0 <= k < |combos| ==> t < |combos[k]|
    ensures |col| == |combos|
    ensures forall k :: 0 <= k < |combos| ==> col[k] == combos[k][t]
  {
    seq(|combos|, k requires 0 <= k < |combos| => combos[k][t])
  }

  /** After n draws, what the items took from a pool and what is left in it
      make up exactly the pool's original contents. */
  lemma ColumnOfDraws(pools: seq<seq<int>>, combos: seq<seq<int>>, t: nat)
    requires t < |pools|
    requires forall u :: 0 <= u < |pools| ==> |combos| <= |pools[u]|
    requires forall k :: 0 <= k < |combos| ==> combos[k] == Draw(pools, k)
    ensures forall k :: 0 <= k < |combos| ==> t < |combos[k]|
    ensures multiset(Column(combos, t)) + multiset(pools[t][..|pools[t]| - |combos|]) == multiset(pools[t])
  {
    var pool, n := pools[t], |combos|;
    assert Column(combos, t) == Reversed(pool[|pool| - n..]);
    ReversedMultiset(pool[|pool| - n..]);
    assert pool == pool[..|pool| - n] + pool[|pool| - n..];
  }

  /** Every pool has lost exactly its top n entries. */
  ghost predicate DrawnDown(pools0: seq<seq<int>>, pools: seq<seq<int>>, n: nat)
  {
    && |pools| == |pools0|
    && forall t :: 0 <= t < |pools0| ==> n <= |pools0[t]| && pools[t] == pools0[t][..|pools0[t]| - n]
  }

  /** After a reshuffle and n draws, every entry of every built pool has
      either been handed out in that trait's column or is still in the pool. */
  lemma ColumnsAccounted(built: seq<seq<int>>, shuffled: seq<seq<int>>, pools: seq<seq<int>>,
                         combos: seq<seq<int>>, draws: seq<seq<int>>)
    requires Reshuffled(built, shuffled, draws)
    requires DrawnDown(shuffled, pools, |combos|)
    requires DrawsFrom(shuffled, combos)
    ensures |pools| == |built|
    ensures forall t :: 0 <= t < |built| ==>
      (forall k :: 0 <= k < |combos| ==> t < |combos[k]|) &&
      multiset(Column(combos, t)) + multiset(pools[t]) == multiset(built[t])
  {
    ReshuffledKeepsEntries(built, shuffled, draws);
    forall t | 0 <= t < |built|
      ensures forall k :: 0 <= k < |combos| ==> t < |combos[k]|
      ensures multiset(Column(combos, t)) + multiset(pools[t]) == multiset(built[t])
    {
      ColumnOfDraws(shuffled, combos, t);
    }
  }

  /** When trait t's rarities are non-negative and add up to at most 100 %,
      a full collection uses up that trait's pool exactly: the items' choices
      are the built pool's entries, so variant i is chosen floor(rarity * size
      / 100) times, plus the shortfall for the padding variant. */
  lemma VariantFrequencies(layers: NftLayers, size: nat, built: seq<seq<int>>, shuffled: seq<seq<int>>,
                           pools: seq<seq<int>>, combos: seq<seq<int>>, draws: seq<seq<int>>, t: nat)
    requires built == TraitPools(layers, size)
    requires Reshuffled(built, shuffled, draws)
    requires DrawnDown(shuffled, pools, size)
    requires DrawsFrom(shuffled, combos) && |combos| == size
    requires t < |built|
    requires forall j :: 0 <= j < |layers.nftTraits[t].nftImages| ==> layers.nftTraits[t].nftImages[j].rarityPercent >= 0
    requires RaritySum(layers.nftTraits[t].nftImages) <= 100
    ensures forall k :: 0 <= k < |combos| ==> t < |combos[k]|
    ensures multiset(Column(combos, t)) == multiset(built[t])
    ensures forall i :: multiset(Column(combos, t))[i] ==
                        (if 0 <= i < |layers.nftTraits[t].nftImages| then Max0(Copies(layers.nftTraits[t].nftImages[i], size)) else 0)
                        + (if i == IndexMax(layers.nftTraits[t].nftImages) then size - Requested(layers.nftTraits[t].nftImages, size) else 0)
  {
    var images := layers.nftTraits[t].nftImages;
    RaritiesFit(images, size);
    PoolShape(images, size);
    assert |built[t]| == size;
    ColumnsAccounted(built, shuffled, pools, combos, draws);
    assert pools[t] == [];
    forall i
      ensures multiset(Column(combos, t))[i] ==
        (if 0 <= i < |images| then Max0(Copies(images[i], size)) else 0)
        + (if i == IndexMax(images) then size - Requested(images, size) else 0)
    {
      PoolCounts(images, size, i);
    }
  }

  /** Popping the pools after n draws hands out the n-th draw and leaves
      the pools drawn down by n + 1. */
  lemma NextDraw(layers: NftLayers, pools0: seq<seq<int>>, pools: seq<seq<int>>, n: nat)
    requires PoolsReady(layers, pools0, n + 1)
    requires DrawnDown(pools0, pools, n)
    ensures forall t :: 0 <= t < |pools| ==> pools[t] != []
    ensures Draw(pools, 0) == Draw(pools0, n)
    ensures ValidCombo(layers, Draw(pools0, n))
    ensures DrawnDown(pools0, Popped(pools), n + 1)
  {
    assert forall t :: 0 <= t < |pools| ==> |pools[t]| == |pools0[t]| - n;
  }

  /** Freshly built pools are ready for a full collection when every trait
      has a variant (or the collection is empty): each holds at least `size`
      valid variant indices. */
  lemma BuiltPoolsReady(layers: NftLayers, size: nat)
    requires size > 0 ==> EveryTraitHasVariants(layers)
    ensures PoolsReady(layers, TraitPools(layers, size), size)
  {
    var pools := TraitPools(layers, size);
    forall t | 0 <= t < |pools|
      ensures |pools[t]| >= size
      ensures forall j :: 0 <= j < |pools[t]| ==> 0 <= pools[t][j] < |layers.nftTraits[t].nftImages|
    {
      PoolShape(layers.nftTraits[t].nftImages, size);
      PoolEntries(layers.nftTraits[t].nftImages, size);
    }
  }

  /** Reshuffling keeps pools ready: same lengths, same entries. */
  lemma ReshuffledReady(layers: NftLayers, pools0: seq<seq<int>>, pools: seq<seq<int>>, draws: seq<seq<int>>, size: nat)
    requires PoolsReady(layers, pools0, size)
    requires Reshuffled(pools0, pools, draws)
    ensures PoolsReady(layers, pools, size)
  {
    ReshuffledKeepsEntries(pools0, pools, draws);
    forall t, j | 0 <= t < |pools| && 0 <= j < |pools[t]|
      ensures 0 <= pools[t][j] < |layers.nftTraits[t].nftImages|
    {
      assert pools[t][j] in multiset(pools[t]);
      assert pools[t][j] in multiset(pools0[t]);
      var i :| 0 <= i < |pools0[t]| && pools0[t][i] == pools[t][j];
    }
  }

  /** Every recorded item chose a variant for every trait, so reading it
      back succeeds with one attribute per trait, in trait order, naming
      the trait and the chosen variant. */
  lemma AcceptedAttributes(layers: NftLayers, records: seq<PfpRecord>, combos: seq<seq<int>>)
    requires Accepted(layers, records, combos)
    requires forall k :: 0 <= k < |combos| ==> |combos[k]| == |layers.nftTraits|
    ensures forall k :: 0 <= k < |records| ==>
      var r := AttributesOf(layers, records[k].pftImageIndices);
      && r.Success? && |r.value| == |layers.nftTraits|
      && forall t :: 0 <= t < |r.value| ==>
           r.value[t] == Attribute(layers.nftTraits[t].name, layers.nftTraits[t].nftImages[combos[k][t]].name)
  {
    forall k | 0 <= k < |records|
      ensures var r := AttributesOf(layers, records[k].pftImageIndices);
        && r.Success? && |r.value| == |layers.nftTraits|
        && forall t :: 0 <= t < |r.value| ==>
             r.value[t] == Attribute(layers.nftTraits[t].name, layers.nftTraits[t].nftImages[combos[k][t]].name)
    {
      FullComboAttributes(layers, combos[k]);
    }
  }

  /** Pools ready for a larger collection are ready for a smaller one. */
  lemma ReadyFor(layers: NftLayers, pools: seq<seq<int>>, size: nat, smaller: nat)
    requires PoolsReady(layers, pools, size) && smaller <= size
    ensures PoolsReady(layers, pools, smaller)
  {
  }

  /** combos lists the first |combos| draws from pools0, in order. */
  ghost predicate DrawsFrom(pools0: seq<seq<int>>, combos: seq<seq<int>>)
  {
    forall k :: 0 <= k < |combos| ==>
      (forall t :: 0 <= t < |pools0| ==> k < |pools0[t]|) && combos[k] == Draw(pools0, k)
  }

  /** Recording the next draw keeps the list of draws. */
  lemma DrawsFromOne(pools0: seq<seq<int>>, combos: seq<seq<int>>)
    requires DrawsFrom(pools0, combos)
    requires forall t :: 0 <= t < |pools0| ==> |combos| < |pools0[t]|
    ensures DrawsFrom(pools0, combos + [Draw(pools0, |combos|)])
  {
  }

  /** What an item holds once it is filled in. */
  datatype PfpRecord = PfpRecord(pftImageIndices: seq<int>, fileName: string, uniqueId: string)

  /** The contents of the items, in order. */
  function Snapshot(pfps: seq<Pfp>): (records: seq<PfpRecord>)
    reads pfps
    ensures |records| == |pfps|
    ensures forall k :: 0 <= k < |pfps| ==>
              records[k] == PfpRecord(pfps[k].pftImageIndices, pfps[k].fileName, pfps[k].uniqueId)
  {
    seq(|pfps|, k reads pfps requires 0 <= k < |pfps| =>
      PfpRecord(pfps[k].pftImageIndices, pfps[k].fileName, pfps[k].uniqueId))
  }

  /** Appending an item to the list appends its record to the snapshot. */
  lemma SnapshotAppend(pfps: seq<Pfp>, pfp: Pfp)
    ensures Snapshot(pfps + [pfp]) == Snapshot(pfps) + [PfpRecord(pfp.pftImageIndices, pfp.fileName, pfp.uniqueId)]
  {
    var r := Snapshot(pfps + [pfp]);
    assert r[..|pfps|] == Snapshot(pfps);
    assert r == r[..|pfps|] + [r[|pfps|]];
  }

  /** The accepted items so far: item k holds draw combos[k], is named
      Pad4(k + 1) and carries the id made from that number and the names of
      its variants. */
  ghost predicate Accepted(layers: NftLayers, records: seq<PfpRecord>, combos: seq<seq<int>>)
  {
    && |records| == |combos|
    && forall k :: 0 <= k < |records| ==>
         && ValidCombo(layers, combos[k])
         && records[k].pftImageIndices == combos[k]
         && records[k].fileName == Pad4(k + 1)
         && records[k].uniqueId == CandidateId(k + 1, ImageNames(layers, combos[k]))
  }

  /** The list of accepted ids, item by item. */
  ghost predicate IdsMatch(layers: NftLayers, combos: seq<seq<int>>, ids: seq<string>)
  {
    && |combos| == |ids|
    && forall k :: 0 <= k < |ids| ==>
         ValidCombo(layers, combos[k]) && ids[k] == CandidateId(k + 1, ImageNames(layers, combos[k]))
  }

  /** Appending an item that records the next draw keeps the record. */
  lemma AcceptOne(layers: NftLayers, records: seq<PfpRecord>, combos: seq<seq<int>>, record: PfpRecord, combo: seq<int>)
    requires Accepted(layers, records, combos)
    requires ValidCombo(layers, combo)
    requires record.pftImageIndices == combo && record.fileName == Pad4(|records| + 1)
    requires record.uniqueId == CandidateId(|records| + 1, ImageNames(layers, combo))
    ensures Accepted(layers, records + [record], combos + [combo])
  {
  }

  /** Recording the next id keeps the list of ids. */
  lemma IdsMatchOne(layers: NftLayers, combos: seq<seq<int>>, ids: seq<string>, combo: seq<int>, id: string)
    requires IdsMatch(layers, combos, ids)
    requires ValidCombo(layers, combo) && id == CandidateId(|ids| + 1, ImageNames(layers, combo))
    ensures IdsMatch(layers, combos + [combo], ids + [id])
  {
    var combos', ids' := combos + [combo], ids + [id];
    forall k | 0 <= k < |ids'|
      ensures ValidCombo(layers, combos'[k]) && ids'[k] == CandidateId(k + 1, ImageNames(layers, combos'[k]))
    {
      if k < |ids| {
        assert combos'[k] == combos[k] && ids'[k] == ids[k];
      }
    }
  }

  /** No accepted id can equal the candidate for the next number. */
  lemma FreshCandidate(layers: NftLayers, combos: seq<seq<int>>, ids: seq<string>, combo: seq<int>)
    requires IdsMatch(layers, combos, ids)
    requires ValidCombo(layers, combo)
    ensures CandidateId(|ids| + 1, ImageNames(layers, combo)) !in ids
  {
    forall k | 0 <= k < |ids|
      ensures ids[k] != CandidateId(|ids| + 1, ImageNames(layers, combo))
    {
      CandidateIdsDistinct(k + 1, |ids| + 1, ImageNames(layers, combos[k]), ImageNames(layers, combo));
    }
  }

  /** Accepted items carry pairwise distinct ids. */
  lemma AcceptedIdsDistinct(layers: NftLayers, records: seq<PfpRecord>, combos: seq<seq<int>>)
    requires Accepted(layers, records, combos)
    ensures forall i, j :: 0 <= i < j < |records| ==> records[i].uniqueId != records[j].uniqueId
  {
    forall i, j | 0 <= i < j < |records|
      ensures records[i].uniqueId != records[j].uniqueId
    {
      CandidateIdsDistinct(i + 1, j + 1, ImageNames(layers, combos[i]), ImageNames(layers, combos[j]));
    }
  }

  /** The inner loops of CreateTraitIndices for one trait: the rarity copies
      of every variant, then the padding. */
  method BuildTraitIndices(nftTrait: NftTrait, size: int) returns (imageIndices: seq<int>)
    ensures imageIndices == TraitPool(nftTrait.nftImages, size)
  {
    var images := nftTrait.nftImages;
    imageIndices := [];
    var index := 0;
    while index < |images|
      invariant 0 <= index <= |images|
      invariant imageIndices == Unpadded(images[..index], size)
    {
      var intNumber := Copies(images[index], size);
      imageIndices := AppendVariant(imageIndices, index, intNumber, size);
      assert images[..index + 1][..index] == images[..index];
      index := index + 1;
    }
    assert images[..index] == images;
    if |imageIndices| > size {
      // oversized pool: only a warning, the list is kept as it is
    } else if |imageIndices| < size {
      imageIndices := PadWith(imageIndices, IndexMax(images), size);
    }
  }

  /** The inner loop for one variant: append `intNumber` copies of `index`,
      leaving the loop early when the list reaches exactly `size` entries. */
  method AppendVariant(imageIndices: seq<int>, index: int, intNumber: int, size: int) returns (r: seq<int>)
    ensures r == AppendCopies(imageIndices, index, intNumber, size)
  {
    r := imageIndices;
    var count := 0;
    while count < intNumber
      invariant 0 <= count && (count <= intNumber || count == 0)
      invariant r == imageIndices + Repeat(index, count)
      invariant |imageIndices| < size ==> |imageIndices| + count < size
    {
      r := r + [index];
      assert r == imageIndices + Repeat(index, count + 1);
      if |r| == size {
        // "List full": leave this variant's loop; later variants still append
        break;
      }
      count := count + 1;
    }
  }

  /** The padding loop: append copies of `indexMax` until the list has
      `size` entries. */
  method PadWith(imageIndices: seq<int>, indexMax: int, size: int) returns (r: seq<int>)
    requires |imageIndices| < size
    ensures r == imageIndices + Repeat(indexMax, size - |imageIndices|)
  {
    r := imageIndices;
    var total := size - |imageIndices|;
    var i := 0;
    while i < total
      invariant 0 <= i <= total
      invariant r == imageIndices + Repeat(indexMax, i)
    {
      r := r + [indexMax];
      i := i + 1;
    }
  }

  /** The used slots of an item, in increasing order. */
  function UsedSlots(indices: seq<int>): (used: seq<nat>)
    ensures forall j :: 0 <= j < |used| ==> used[j] < |indices| && indices[used[j]] != -1
    ensures forall j, k :: 0 <= j < k < |used| ==> used[j] < used[k]
  {
    if indices == [] then []
    else
      var i := |indices| - 1;
      UsedSlots(indices[..i]) + (if indices[i] != -1 then [i] else [])
  }

  /** Every slot that holds a variant index is listed. */
  lemma {:induction false} UsedSlotsComplete(indices: seq<int>, i: nat)
    requires i < |indices| && indices[i] != -1
    ensures i in UsedSlots(indices)
  {
    var n := |indices| - 1;
    if i < n {
      UsedSlotsComplete(indices[..n], i);
    }
  }

  /** Slot i can be turned into an attribute (or is unused). */
  predicate SlotUsable(layers: NftLayers, indices: seq<int>, i: nat)
    requires i < |indices|
  {
    indices[i] == -1 || (i < |layers.nftTraits| && 0 <= indices[i] < |layers.nftTraits[i].nftImages|)
  }

  predicate SlotsUsable(layers: NftLayers, indices: seq<int>)
  {
    forall i :: 0 <= i < |indices| ==> SlotUsable(layers, indices, i)
  }

  /** The attribute for a used slot: trait name and variant name. */
  function AttributeAt(layers: NftLayers, indices: seq<int>, i: nat): Attribute
    requires i < |indices| && i < |layers.nftTraits|
    requires 0 <= indices[i] < |layers.nftTraits[i].nftImages|
  {
    Attribute(layers.nftTraits[i].name, layers.nftTraits[i].nftImages[indices[i]].name)
  }

  /** Errors the attribute loop runs into: the slot has no trait, or its
      index is not a variant of that trait. */
  datatype SlotError = TraitOutOfRange(slot: int) | ImageOutOfRange(slot: int, imageIndex: int)

  /** What the attribute loop yields for one item, slot by slot. */
  function AttributesOf(layers: NftLayers, indices: seq<int>): (r: Result<seq<Attribute>, SlotError>)
    ensures r.Success? ==> |r.value| <= |indices|
    ensures r.Failure? ==> 0 <= r.error.slot < |indices|
  {
    if indices == [] then Success([])
    else
      var i := |indices| - 1;
      match AttributesOf(layers, indices[..i])
      case Failure(e) => Failure(e)
      case Success(attrs) =>
        if indices[i] == -1 then Success(attrs)
        else if i >= |layers.nftTraits| then Failure(TraitOutOfRange(i))
        else if !(0 <= indices[i] < |layers.nftTraits[i].nftImages|) then Failure(ImageOutOfRange(i, indices[i]))
        else Success(attrs + [AttributeAt(layers, indices, i)])
  }

  /** Slots below the last one are usable in a list exactly when they are
      usable in the list without its last slot. */
  lemma SlotUsableInit(layers: NftLayers, indices: seq<int>)
    requires indices != []
    ensures forall k :: 0 <= k < |indices| - 1 ==>
      SlotUsable(layers, indices, k) == SlotUsable(layers, indices[..|indices| - 1], k)
  {
  }

  /** The attribute loop succeeds exactly when every slot is usable. */
  lemma {:induction false} AttributesOfSucceeds(layers: NftLayers, indices: seq<int>)
    ensures AttributesOf(layers, indices).Success? <==> SlotsUsable(layers, indices)
  {
    if indices != [] {
      var i := |indices| - 1;
      var init := indices[..i];
      AttributesOfSucceeds(layers, init);
      SlotUsableInit(layers, indices);
      if AttributesOf(layers, init).Failure? {
        assert !SlotsUsable(layers, init);
        var k :| 0 <= k < i && !SlotUsable(layers, init, k);
        assert !SlotUsable(layers, indices, k);
      } else if SlotUsable(layers, indices, i) {
        assert SlotsUsable(layers, indices);
      } else {
        assert !SlotsUsable(layers, indices);
      }
    }
  }

  /** On success the loop yields one attribute per used slot, in slot order. */
  lemma {:induction false} AttributesOfContents(layers: NftLayers, indices: seq<int>)
    requires AttributesOf(layers, indices).Success?
    ensures
      var attrs, used := AttributesOf(layers, indices).value, UsedSlots(indices);
      && |attrs| == |used|
      && forall j :: 0 <= j < |used| ==>
           SlotUsable(layers, indices, used[j]) && attrs[j] == AttributeAt(layers, indices, used[j])
  {
    if indices != [] {
      var i := |indices| - 1;
      var init := indices[..i];
      AttributesOfContents(layers, init);
      SlotUsableInit(layers, indices);
      var used := UsedSlots(init);
      var attrs := AttributesOf(layers, init).value;
      assert forall j :: 0 <= j < |used| ==>
        AttributeAt(layers, indices, used[j]) == AttributeAt(layers, init, used[j]);
      var all, every := UsedSlots(indices), AttributesOf(layers, indices).value;
      if indices[i] == -1 {
        assert all == used && every == attrs;
      } else {
        assert all == used + [i] && every == attrs + [AttributeAt(layers, indices, i)];
      }
      forall j | 0 <= j < |all|
        ensures SlotUsable(layers, indices, all[j]) && every[j] == AttributeAt(layers, indices, all[j])
      {
        if j < |used| {
          assert all[j] == used[j] && every[j] == attrs[j];
        }
      }
    }
  }

  /** On failure the loop reports the first slot that is not usable, with
      the kind of error that slot causes. */
  lemma {:induction false} AttributesOfFirstFailure(layers: NftLayers, indices: seq<int>)
    requires AttributesOf(layers, indices).Failure?
    ensures
      var e := AttributesOf(layers, indices).error;
      && 0 <= e.slot < |indices|
      && !SlotUsable(layers, indices, e.slot)
      && (forall i :: 0 <= i < e.slot ==> SlotUsable(layers, indices, i))
      && (e.TraitOutOfRange? <==> e.slot >= |layers.nftTraits|)
      && (e.ImageOutOfRange? ==> e.imageIndex == indices[e.slot])
  {
    var i := |indices| - 1;
    var init := indices[..i];
    SlotUsableInit(layers, indices);
    if AttributesOf(layers, init).Failure? {
      AttributesOfFirstFailure(layers, init);
    } else {
      AttributesOfSucceeds(layers, init);
      assert forall k :: 0 <= k < i ==> SlotUsable(layers, init, k);
    }
  }

  /** The attribute-selection loop of GenerateFromJson for one item. */
  method SelectAttributes(layers: NftLayers, indices: seq<int>) returns (r: Result<seq<Attribute>, SlotError>)
    ensures r == AttributesOf(layers, indices)
  {
    var attributes: seq<Attribute> := [];
    var i := 0;
    while i < |indices|
      invariant 0 <= i <= |indices|
      invariant AttributesOf(layers, indices[..i]) == Success(attributes)
    {
      assert indices[..i + 1][..i] == indices[..i];
      var traitUsed := indices[i] != -1;
      if !traitUsed {
        i := i + 1;
        continue;
      }
      if i >= |layers.nftTraits| {
        r := Failure(TraitOutOfRange(i));
        AttributesPrefixFailure(layers, indices, i + 1);
        return;
      }
      if !(0 <= indices[i] < |layers.nftTraits[i].nftImages|) {
        r := Failure(ImageOutOfRange(i, indices[i]));
        AttributesPrefixFailure(layers, indices, i + 1);
        return;
      }
      var nftImage := layers.nftTraits[i].nftImages[indices[i]];
      attributes := attributes + [Attribute(layers.nftTraits[i].name, nftImage.name)];
      i := i + 1;
    }
    assert indices[..i] == indices;
    r := Success(attributes);
  }

  /** A failure on a prefix of the slots is the failure of the whole item. */
  lemma {:induction false} AttributesPrefixFailure(layers: NftLayers, indices: seq<int>, n: nat)
    requires n <= |indices|
    requires AttributesOf(layers, indices[..n]).Failure?
    ensures AttributesOf(layers, indices) == AttributesOf(layers, indices[..n])
    decreases |indices| - n
  {
    if n < |indices| {
      assert indices[..n + 1][..n] == indices[..n];
      AttributesPrefixFailure(layers, indices, n + 1);
    } else {
      assert indices[..n] == indices;
    }
  }

  /** An item that chose a variant for every trait yields one attribute
      per trait, in trait order. */
  lemma FullComboAttributes(layers: NftLayers, combo: seq<int>)
    requires ValidCombo(layers, combo) && |combo| == |layers.nftTraits|
    ensures AttributesOf(layers, combo).Success?
    ensures var attrs := AttributesOf(layers, combo).value;
      && |attrs| == |combo|
      && forall t :: 0 <= t < |combo| ==>
           attrs[t] == Attribute(layers.nftTraits[t].name, layers.nftTraits[t].nftImages[combo[t]].name)
  {
    AttributesOfSucceeds(layers, combo);
    AttributesOfContents(layers, combo);
    UsedLength(combo);
    var used := UsedSlots(combo);
    forall t | 0 <= t < |combo| ensures t < |used| && used[t] == t {
      UsedAllSlots(combo, used, t);
    }
  }

  /** When no slot is unused, the used slots are 0, 1, 2, ... */
  lemma {:induction false} UsedAllSlots(indices: seq<int>, used: seq<nat>, t: nat)
    requires used == UsedSlots(indices)
    requires forall i :: 0 <= i < |indices| ==> indices[i] != -1
    requires t < |indices|
    ensures t < |used| && used[t] == t
  {
    var i := |indices| - 1;
    assert used == UsedSlots(indices[..i]) + [i];
    if t < i {
      UsedAllSlots(indices[..i], UsedSlots(indices[..i]), t);
    } else {
      UsedLength(indices[..i]);
    }
  }

  lemma {:induction false} UsedLength(indices: seq<int>)
    requires forall i :: 0 <= i < |indices| ==> indices[i] != -1
    ensures |UsedSlots(indices)| == |indices|
  {
    if indices != [] {
      UsedLength(indices[..|indices| - 1]);
    }
  }

  /** Stack t of the new pools is a Fisher-Yates shuffle, under draws[t],
      of stack t of the old pools dumped top first. */
  ghost predicate Reshuffled(pools0: seq<seq<int>>, pools: seq<seq<int>>, draws: seq<seq<int>>)
  {
    && |pools| == |pools0| == |draws|
    && forall t :: 0 <= t < |draws| ==>
         && ValidDraws(|pools0[t]|, draws[t]) && |draws[t]| == StepCount(|pools0[t]|)
         && pools[t] == Steps(Reversed(pools0[t]), draws[t])
  }

  /** A reshuffle keeps every stack's elements. */
  lemma ReshuffledKeepsEntries(pools0: seq<seq<int>>, pools: seq<seq<int>>, draws: seq<seq<int>>)
    requires Reshuffled(pools0, pools, draws)
    ensures forall t :: 0 <= t < |pools| ==> multiset(pools[t]) == multiset(pools0[t])
  {
    forall t | 0 <= t < |pools|
      ensures multiset(pools[t]) == multiset(pools0[t])
    {
      ReversedMultiset(pools0[t]);
      StepsPermute(Reversed(pools0[t]), draws[t]);
    }
  }

  /** Reshuffling stack t after the first t keeps the record. */
  lemma ReshuffledOne(pools0: seq<seq<int>>, pools: seq<seq<int>>, draws: seq<seq<int>>, t: nat,
                      pushed: seq<int>, d: seq<int>)
    requires t < |pools| == |pools0| && pools[t..] == pools0[t..]
    requires Reshuffled(pools0[..t], pools[..t], draws)
    requires ValidDraws(|pools0[t]|, d) && |d| == StepCount(|pools0[t]|)
    requires pushed == Steps(Reversed(pools0[t]), d)
    ensures pools[t := pushed][t + 1..] == pools0[t + 1..]
    ensures Reshuffled(pools0[..t + 1], pools[t := pushed][..t + 1], draws + [d])
  {
    assert pools[t] == pools0[t] by {
      assert pools[t..][0] == pools0[t..][0];
    }
    assert pools[t := pushed][t + 1..] == pools[t + 1..] == pools0[t + 1..] by {
      assert pools[t + 1..] == pools[t..][1..];
      assert pools0[t + 1..] == pools0[t..][1..];
    }
    var pre0 := pools0[..t + 1];
    var pre := pools[t := pushed][..t + 1];
    assert forall u :: 0 <= u < t ==> pre0[u] == pools0[..t][u] && pre[u] == pools[..t][u];
  }

  /** One stack of ShuffleTraitRarityIndices: dumped to an array top first,
      shuffled in place, pushed back bottom to top. The result keeps the
      stack's elements. */
  method ReshuffleStack(stack: seq<int>) returns (pushed: seq<int>, ghost draws: seq<int>)
    ensures ValidDraws(|stack|, draws) && |draws| == StepCount(|stack|)
    ensures pushed == Steps(Reversed(stack), draws)
    ensures multiset(pushed) == multiset(stack)
  {
    var values := new int[|stack|](i requires 0 <= i < |stack| => stack[|stack| - 1 - i]);
    assert values[..] == Reversed(stack);
    ReversedMultiset(stack);
    draws := Shuffle(values);
    pushed := [];
    var i := 0;
    while i < values.Length
      invariant 0 <= i <= values.Length
      invariant pushed == values[..i]
    {
      pushed := pushed + [values[i]];
      i := i + 1;
    }
    assert values[..i] == values[..];
  }

  /** The pools and slots after popping the first index pools. */
  ghost predicate PoppedUpTo(pools: seq<seq<int>>, stacks: seq<seq<int>>, slots: seq<int>, index: nat)
    requires |stacks| == |slots| == |pools| && index <= |pools|
    requires forall t :: 0 <= t < |pools| ==> pools[t] != []
  {
    && (forall t :: 0 <= t < index ==>
          stacks[t] == pools[t][..|pools[t]| - 1] && slots[t] == pools[t][|pools[t]| - 1])
    && (forall t :: index <= t < |pools| ==> stacks[t] == pools[t])
  }

  /** Popping pool index moves PoppedUpTo one pool on. */
  lemma PopStep(pools: seq<seq<int>>, stacks: seq<seq<int>>, slots: seq<int>, index: nat)
    requires |stacks| == |slots| == |pools| && index < |pools|
    requires forall t :: 0 <= t < |pools| ==> pools[t] != []
    requires PoppedUpTo(pools, stacks, slots, index)
    ensures stacks[index] == pools[index]
    ensures PoppedUpTo(pools, stacks[index := stacks[index][..|stacks[index]| - 1]],
                       slots[index := stacks[index][|stacks[index]| - 1]], index + 1)
  {
  }

  /** The per-trait loop of the allocation on values: for every trait, pop
      the top of its stack into the item's slot and append "_" + the
      variant's name to the id. */
  method PopEach(layers: NftLayers, pools: seq<seq<int>>, indices: seq<int>, numberPart: string)
    returns (stacks: seq<seq<int>>, slots: seq<int>, uniqueId: string)
    requires |indices| == |pools| <= |layers.nftTraits|
    requires forall t :: 0 <= t < |pools| ==> pools[t] != []
    requires ValidCombo(layers, Draw(pools, 0))
    ensures stacks == Popped(pools)
    ensures slots == Draw(pools, 0)
    ensures uniqueId == numberPart + Suffix(ImageNames(layers, Draw(pools, 0)))
  {
    stacks := pools;
    slots := indices;
    ghost var names: seq<string> := [];
    uniqueId := numberPart;
    var traitCount := |stacks|;
    var index := 0;
    while index < traitCount
      invariant 0 <= index <= traitCount == |stacks| == |slots| == |pools|
      invariant PoppedUpTo(pools, stacks, slots, index)
      invariant |names| == index
      invariant forall t :: 0 <= t < index ==>
        names[t] == layers.nftTraits[t].nftImages[slots[t]].name
      invariant uniqueId == numberPart + Suffix(names)
    {
      PopStep(pools, stacks, slots, index);
      var stack := stacks[index];
      var nftImageIndex := stack[|stack| - 1];
      assert nftImageIndex == Draw(pools, 0)[index];
      stacks := stacks[index := stack[..|stack| - 1]];
      slots := slots[index := nftImageIndex];
      var name := layers.nftTraits[index].nftImages[nftImageIndex].name;
      uniqueId := uniqueId + "_" + name;
      SuffixAppend(names, name);
      names := names + [name];
      index := index + 1;
    }
    assert stacks == Popped(pools);
    assert slots == Draw(pools, 0);
    assert names == ImageNames(layers, slots);
  }

  /** The generator's state: the configuration, the collection size and
      one pool per trait. */
  class PfpCollectionGenerator {
    var layers: NftLayers
    var nftCollectionSize: int
    var traitIndicesBasedOnRarity: seq<seq<int>>

    constructor (layers: NftLayers, nftCollectionSize: int)
      ensures this.layers == layers && this.nftCollectionSize == nftCollectionSize
      ensures traitIndicesBasedOnRarity == []
    {
      this.layers := layers;
      this.nftCollectionSize := nftCollectionSize;
      traitIndicesBasedOnRarity := [];
    }

    /** Appends one rarity pool per trait, in trait order. */
    method CreateTraitIndices()
      modifies this`traitIndicesBasedOnRarity
      ensures traitIndicesBasedOnRarity == old(traitIndicesBasedOnRarity) + TraitPools(layers, nftCollectionSize)
    {
      ghost var start := traitIndicesBasedOnRarity;
      ghost var pools := TraitPools(layers, nftCollectionSize);
      var t := 0;
      while t < |layers.nftTraits|
        invariant 0 <= t <= |layers.nftTraits| == |pools|
        invariant traitIndicesBasedOnRarity == start + pools[..t]
      {
        var imageIndices := BuildTraitIndices(layers.nftTraits[t], nftCollectionSize);
        assert imageIndices == pools[t];
        assert pools[..t + 1] == pools[..t] + [imageIndices];
        traitIndicesBasedOnRarity := traitIndicesBasedOnRarity + [imageIndices];
        t := t + 1;
      }
      assert pools[..t] == pools;
    }

    /** Reshuffles every pool: dump it to an array (top first), shuffle the
        array in place, clear the stack and push the array back in order. */
    method ShuffleTraitRarityIndices() returns (ghost draws: seq<seq<int>>)
      modifies this`traitIndicesBasedOnRarity
      ensures Reshuffled(old(traitIndicesBasedOnRarity), traitIndicesBasedOnRarity, draws)
    {
      draws := [];
      var t := 0;
      ghost var pools0 := traitIndicesBasedOnRarity;
      while t < |traitIndicesBasedOnRarity|
        invariant 0 <= t <= |traitIndicesBasedOnRarity| == |pools0|
        invariant traitIndicesBasedOnRarity[t..] == pools0[t..]
        invariant Reshuffled(pools0[..t], traitIndicesBasedOnRarity[..t], draws)
      {
        var pushed;
        ghost var d;
        pushed, d := ReshuffleStack(traitIndicesBasedOnRarity[t]);
        ReshuffledOne(pools0, traitIndicesBasedOnRarity, draws, t, pushed, d);
        traitIndicesBasedOnRarity := traitIndicesBasedOnRarity[t := pushed];
        draws := draws + [d];
        t := t + 1;
      }
      assert pools0[..t] == pools0;
      assert traitIndicesBasedOnRarity[..t] == traitIndicesBasedOnRarity;
    }

    /** One pass of the per-trait loop of the allocation: pop the top of
        every pool into the item's slot and append "_" + the variant's name
        to the id. */
    method PopCandidate(pfp: Pfp, numberPart: string) returns (uniqueId: string)
      requires |pfp.pftImageIndices| == |traitIndicesBasedOnRarity| <= |layers.nftTraits|
      requires forall t :: 0 <= t < |traitIndicesBasedOnRarity| ==> traitIndicesBasedOnRarity[t] != []
      requires ValidCombo(layers, Draw(traitIndicesBasedOnRarity, 0))
      modifies this`traitIndicesBasedOnRarity, pfp`pftImageIndices
      ensures traitIndicesBasedOnRarity == Popped(old(traitIndicesBasedOnRarity))
      ensures pfp.pftImageIndices == Draw(old(traitIndicesBasedOnRarity), 0)
      ensures uniqueId == numberPart + Suffix(ImageNames(layers, Draw(old(traitIndicesBasedOnRarity), 0)))
    {
      var stacks, slots;
      stacks, slots, uniqueId := PopEach(layers, traitIndicesBasedOnRarity, pfp.pftImageIndices, numberPart);
      traitIndicesBasedOnRarity := stacks;
      pfp.pftImageIndices := slots;
    }

    /** One round of the allocation loop: a new item takes the next draw
        and gets its name and id, which is checked against the ids accepted
        so far. */
    method AddNextPfp(ghost pools0: seq<seq<int>>, pfpGenerated: nat, uniqueIds: seq<string>, ghost combos: seq<seq<int>>)
      returns (pfp: Pfp, uniqueId: string, ghost combo: seq<int>)
      requires |uniqueIds| == pfpGenerated
      requires PoolsReady(layers, pools0, pfpGenerated + 1)
      requires DrawnDown(pools0, traitIndicesBasedOnRarity, pfpGenerated)
      requires IdsMatch(layers, combos, uniqueIds) && DrawsFrom(pools0, combos)
      modifies this`traitIndicesBasedOnRarity
      ensures fresh(pfp)
      ensures DrawnDown(pools0, traitIndicesBasedOnRarity, pfpGenerated + 1)
      ensures ValidCombo(layers, combo) && combo == Draw(pools0, pfpGenerated)
      ensures pfp.pftImageIndices == combo && pfp.fileName == Pad4(pfpGenerated + 1)
      ensures pfp.uniqueId == uniqueId == CandidateId(pfpGenerated + 1, ImageNames(layers, combo))
      ensures uniqueId !in uniqueIds
      ensures IdsMatch(layers, combos + [combo], uniqueIds + [uniqueId])
      ensures DrawsFrom(pools0, combos + [combo])
    {
      uniqueId := Pad4(pfpGenerated + 1);
      var traitCount := |traitIndicesBasedOnRarity|;
      pfp := new Pfp(traitCount);
      NextDraw(layers, pools0, traitIndicesBasedOnRarity, pfpGenerated);
      combo := Draw(pools0, pfpGenerated);
      uniqueId := PopCandidate(pfp, uniqueId);
      FreshCandidate(layers, combos, uniqueIds, combo);
      if uniqueId in uniqueIds {
        // The source reshuffles every pool here and tries again. No
        // accepted id starts with this item's number, so this never runs.
        assert false;
      }
      IdsMatchOne(layers, combos, uniqueIds, combo, uniqueId);
      DrawsFromOne(pools0, combos);
      pfp.UpdateParameters(uniqueId, Pad4(pfpGenerated + 1));
    }

    /** One round of the allocation loop together with the bookkeeping of
        the accepted items: the new item joins pfps, its id joins uniqueIds
        and its draw joins combos. */
    method AcceptNextPfp(ghost pools0: seq<seq<int>>, pfps: seq<Pfp>, uniqueIds: seq<string>, ghost combos: seq<seq<int>>)
      returns (pfps': seq<Pfp>, uniqueIds': seq<string>, ghost combos': seq<seq<int>>)
      requires |uniqueIds| == |pfps|
      requires PoolsReady(layers, pools0, |pfps| + 1)
      requires DrawnDown(pools0, traitIndicesBasedOnRarity, |pfps|)
      requires Accepted(layers, Snapshot(pfps), combos) && IdsMatch(layers, combos, uniqueIds)
      requires DrawsFrom(pools0, combos)
      modifies this`traitIndicesBasedOnRarity
      ensures |pfps'| == |uniqueIds'| == |pfps| + 1 && pfps'[..|pfps|] == pfps
      ensures DrawnDown(pools0, traitIndicesBasedOnRarity, |pfps'|)
      ensures Accepted(layers, Snapshot(pfps'), combos') && IdsMatch(layers, combos', uniqueIds')
      ensures DrawsFrom(pools0, combos')
    {
      ghost var records := Snapshot(pfps);
      var pfp, uniqueId;
      ghost var combo;
      pfp, uniqueId, combo := AddNextPfp(pools0, |pfps|, uniqueIds, combos);
      assert Snapshot(pfps) == records;
      ghost var record := PfpRecord(pfp.pftImageIndices, pfp.fileName, pfp.uniqueId);
      AcceptOne(layers, records, combos, record, combo);
      SnapshotAppend(pfps, pfp);
      pfps' := pfps + [pfp];
      uniqueIds' := uniqueIds + [uniqueId];
      combos' := combos + [combo];
    }

    /** The allocation loop: draws items until the collection is full. Each
        accepted item k (from 0) holds the k-th draw, is named Pad4(k + 1) and
        has the id built from that number and its variants' names. */
    method AllocateCollection() returns (pfps: seq<Pfp>, ghost combos: seq<seq<int>>)
      requires nftCollectionSize >= 0
      requires PoolsReady(layers, traitIndicesBasedOnRarity, nftCollectionSize)
      modifies this`traitIndicesBasedOnRarity
      ensures |pfps| == |combos| == nftCollectionSize
      ensures DrawnDown(old(traitIndicesBasedOnRarity), traitIndicesBasedOnRarity, nftCollectionSize)
      ensures DrawsFrom(old(traitIndicesBasedOnRarity), combos)
      ensures Accepted(layers, Snapshot(pfps), combos)
      ensures forall i, j :: 0 <= i < j < |pfps| ==> pfps[i].uniqueId != pfps[j].uniqueId
    {
      var uniqueIds: seq<string> := [];
      var count := nftCollectionSize;
      pfps := [];
      combos := [];
      ghost var pools0 := traitIndicesBasedOnRarity;
      while |pfps| != count
        invariant |pfps| <= count
        invariant DrawnDown(pools0, traitIndicesBasedOnRarity, |pfps|)
        invariant |uniqueIds| == |pfps|
        invariant Accepted(layers, Snapshot(pfps), combos) && IdsMatch(layers, combos, uniqueIds)
        invariant DrawsFrom(pools0, combos)
        decreases count - |pfps|
      {
        ReadyFor(layers, pools0, count, |pfps| + 1);
        pfps, uniqueIds, combos := AcceptNextPfp(pools0, pfps, uniqueIds, combos);
      }
      AcceptedIdsDistinct(layers, Snapshot(pfps), combos);
    }

    /** The first half of the Generate button: build the pools from the
        rarities and reshuffle them. built names the pools as first built.
        The button is disabled once pressed, so the pools start empty. */
    method PreparePools() returns (ghost built: seq<seq<int>>, ghost draws: seq<seq<int>>)
      requires traitIndicesBasedOnRarity == []
      requires nftCollectionSize >= 0
      requires nftCollectionSize > 0 ==> EveryTraitHasVariants(layers)
      modifies this`traitIndicesBasedOnRarity
      ensures built == TraitPools(layers, nftCollectionSize)
      ensures Reshuffled(built, traitIndicesBasedOnRarity, draws)
      ensures PoolsReady(layers, traitIndicesBasedOnRarity, nftCollectionSize)
    {
      built := TraitPools(layers, nftCollectionSize);
      CreateTraitIndices();
      assert traitIndicesBasedOnRarity == built by {
        assert [] + built == built;
      }
      BuiltPoolsReady(layers, nftCollectionSize);
      draws := ShuffleTraitRarityIndices();
      ReshuffledReady(layers, built, traitIndicesBasedOnRarity, draws, nftCollectionSize);
    }

    /** The Generate button: prepare the pools, then allocate the whole
        collection from them. shuffled names the pools after the reshuffle. */
    method GenerateJson() returns (pfps: seq<Pfp>, ghost combos: seq<seq<int>>,
                                   ghost built: seq<seq<int>>, ghost shuffled: seq<seq<int>>,
                                   ghost draws: seq<seq<int>>)
      requires traitIndicesBasedOnRarity == []
      requires nftCollectionSize >= 0
      requires nftCollectionSize > 0 ==> EveryTraitHasVariants(layers)
      modifies this`traitIndicesBasedOnRarity
      ensures built == TraitPools(layers, nftCollectionSize)
      ensures Reshuffled(built, shuffled, draws)
      ensures |pfps| == |combos| == nftCollectionSize
      ensures DrawnDown(shuffled, traitIndicesBasedOnRarity, nftCollectionSize)
      ensures DrawsFrom(shuffled, combos)
      ensures Accepted(layers, Snapshot(pfps), combos)
      ensures forall i, j :: 0 <= i < j < |pfps| ==> pfps[i].uniqueId != pfps[j].uniqueId
      ensures forall t :: 0 <= t < |built| ==>
        multiset(Column(combos, t)) + multiset(traitIndicesBasedOnRarity[t]) == multiset(built[t])
    {
      built, draws := PreparePools();
      shuffled := traitIndicesBasedOnRarity;
      pfps, combos := AllocateCollection();
      ColumnsAccounted(built, shuffled, traitIndicesBasedOnRarity, combos, draws);
    }

    /** The Metadata button, on the pfp.json read back: for each item in
        order, its attributes (one per used slot) and its metadata record.
        scores[k] is item k's score. The source stops at the first item with
        a slot it cannot resolve; the records made before it are kept. */
    method GenerateFromJson(pfps: seq<Pfp>, scores: seq<real>) returns (records: seq<Metadata>, failure: Option<SlotError>)
      requires |scores| == |pfps|
      ensures |records| <= |pfps|
      ensures forall k :: 0 <= k < |records| ==>
        && AttributesOf(layers, pfps[k].pftImageIndices).Success?
        && records[k] == CreateMetadata(pfps[k].uniqueId, scores[k], AttributesOf(layers, pfps[k].pftImageIndices).value)
      ensures failure.None? <==> |records| == |pfps|
      ensures failure.Some? ==> AttributesOf(layers, pfps[|records|].pftImageIndices) == Failure(failure.value)
    {
      records := [];
      var k := 0;
      while k < |pfps|
        invariant 0 <= k <= |pfps| && |records| == k
        invariant forall j :: 0 <= j < k ==>
          && AttributesOf(layers, pfps[j].pftImageIndices).Success?
          && records[j] == CreateMetadata(pfps[j].uniqueId, scores[j], AttributesOf(layers, pfps[j].pftImageIndices).value)
      {
        var pfp := pfps[k];
        var attributes := SelectAttributes(layers, pfp.pftImageIndices);
        if attributes.Failure? {
          failure := Some(attributes.error);
          return;
        }
        records := records + [CreateMetadata(pfp.uniqueId, scores[k], attributes.value)];
        k := k + 1;
      }
      failure := None;
    }
  }
}
