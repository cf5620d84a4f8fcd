# PFP collection generator: a Dafny model of the allocation core

The generator builds a collection of profile pictures ("pfps") out of layered
traits. Each trait, such as a background or a hat, has variants, and each
variant has a rarity percentage. Pressing Generate does three things:

- It builds one pool of variant indices per trait. A variant gets
  `floor(rarity * size / 100)` copies (none when that is negative). The pool is padded with the
  highest-rarity variant when it falls short.
- It shuffles every pool with Fisher–Yates.
- It pops one entry from every pool per item. Item `n` (counting from 1) gets
  the file name `n` in the `0000` number format. Its unique id is that number
  followed by `_` + each chosen variant's name, trait by trait.

Pressing Metadata reads the stored items back. For each item it builds one
attribute per used slot (trait name, variant name) and a metadata record:

- `name`: the id
- `description`: `Dan_` + id
- `image`: `ipfs://OurUri/` + id + `.png`
- the item's score

The model consists of these files:

- `config.dfy` (`NftConfig`): the configuration records. These are traits,
  variants and the layer list.
- `pools.dfy` (`RarityPools`): what the pool builder computes for one trait,
  as functions. This covers copies, the early stop, padding and the padding
  index. It also holds what those functions guarantee.
- `shuffle.dfy` (`CustomExtentions`): the in-place Fisher–Yates shuffle on an
  `array<int>`.
  - The random generator is modelled as a nondeterministic choice in
    `[0, index]`.
  - The choices come back as a ghost history, so the result is stated exactly.
- `ids.dfy` (`PfpIds`): the `0000` number format, the candidate id, and a
  proof that ids with different numbers never coincide.
- `metadata.dfy` (`MetadataGenerator`): the metadata record.
- `generator.dfy` (`CollectionGenerator`): the engine itself.
  - The item class `Pfp`.
  - The generator class `PfpCollectionGenerator`. Its pools field is updated
    in place, and it runs the build, shuffle, allocation and read-back.
  - The lemmas tying the allocation to the pools.

A C# `Stack<int>` is modelled as a `seq<int>` listed bottom first:

- `Pop` takes the last element.
- `new Stack<int>(list)` keeps the list's order.
- `ToArray` reads the sequence back to front (`Reversed`).

Pushing an array back value by value therefore gives a sequence equal to the
array.

## Model

| member | source | states |
|---|---|---|
| `CollectionGenerator.Pfp.constructor` | Assets/_Core/Scripts/PfpCollectionGenerator.cs:64-71 | a new item has `traitCount` slots, all `-1` (unused) |
| `CollectionGenerator.Pfp.UpdateParameters` | Assets/_Core/Scripts/PfpCollectionGenerator.cs:77-81 | sets the file name and the unique id to the given values |
| `CollectionGenerator.PfpCollectionGenerator.CreateTraitIndices` | Assets/_Core/Scripts/PfpCollectionGenerator.cs:388-446 | appends exactly one pool per trait, in trait order, each equal to `TraitPool` of that trait's variants |
| `CollectionGenerator.BuildTraitIndices` | Assets/_Core/Scripts/PfpCollectionGenerator.cs:395-440 | the list built for one trait is `TraitPool`: the rarity copies, then the padding when short, kept as is when oversized |
| `CollectionGenerator.AppendVariant` | Assets/_Core/Scripts/PfpCollectionGenerator.cs:397-414 | one variant's loop appends its copies but leaves the loop when the list reaches exactly the collection size (`AppendCopies`) |
| `CollectionGenerator.PadWith` | Assets/_Core/Scripts/PfpCollectionGenerator.cs:431-436 | a short list is extended by `size - length` copies of the padding index, and nothing else changes |
| `CollectionGenerator.PfpCollectionGenerator.constructor` | Assets/_Core/Scripts/PfpCollectionGenerator.cs:45 | a new generator holds no pools yet |
| `RarityPools.Copies` | Assets/_Core/Scripts/PfpCollectionGenerator.cs:401-403 | the copies a variant asks for are `floor(rarity * size / 100)`: 100 times them is at most `rarity * size` and within 100 of it |
| `RarityPools.AppendCopies` | Assets/_Core/Scripts/PfpCollectionGenerator.cs:405-414 | one variant's loop keeps the list so far and appends only that variant's index: all its copies, or just enough to reach the size when the list crosses it (the `break`) |
| `RarityPools.Unpadded` | Assets/_Core/Scripts/PfpCollectionGenerator.cs:397-415 | the list before padding: each variant's `AppendCopies` in variant order (its guarantees are `UnpaddedOrdered`, `UnpaddedLength` and `UnpaddedUncapped`) |
| `RarityPools.Requested` | Assets/_Core/Scripts/PfpCollectionGenerator.cs:401-403 | the total number of copies the variants ask for (bounded by `RequestedBound`) |
| `RarityPools.RaritySum` | Assets/_Core/Scripts/PfpCollectionGenerator.cs:397-403 | the sum of the trait's rarity percentages, the quantity the design expects to be at most 100 |
| `RarityPools.TraitPool` | Assets/_Core/Scripts/PfpCollectionGenerator.cs:395-437 | the pool built for one trait; it always holds at least `size` entries |
| `RarityPools.RequestedBound` | Assets/_Core/Scripts/PfpCollectionGenerator.cs:397-403 | with non-negative rarities, 100 times the copies asked for is at most the rarity sum times the size |
| `RarityPools.RaritiesFit` | Assets/_Core/Scripts/PfpCollectionGenerator.cs:397-423 | when the rarities are non-negative and sum to at most 100, the copies asked for fit in the collection, so the `break`, when reached, cuts no copy, and the oversized branch (:417) is never reached |
| `RarityPools.NegativeSizePool` | Assets/_Core/Scripts/PfpCollectionGenerator.cs:397-423 | with non-negative rarities and a negative size no copy is appended and the pool stays empty |
| `RarityPools.IndexMaxIsLastMaximum` | Assets/_Core/Scripts/PfpCollectionGenerator.cs:425-429 | the padding index has maximal rarity, and no later variant ties it (the LINQ `Aggregate` picks the last maximum) |
| `RarityPools.IndexMax` | Assets/_Core/Scripts/PfpCollectionGenerator.cs:425-429 | the padding index is a variant index, and it is `-1` exactly when the trait has no variants |
| `RarityPools.UnpaddedOrdered` | Assets/_Core/Scripts/PfpCollectionGenerator.cs:397-415 | before padding, the entries are valid variant indices in ascending variant order |
| `RarityPools.UnpaddedLength` | Assets/_Core/Scripts/PfpCollectionGenerator.cs:397-415 | before padding the list holds at most the copies asked for, and at least `min(requested, size)` |
| `RarityPools.UnpaddedUncapped` | Assets/_Core/Scripts/PfpCollectionGenerator.cs:397-415 | when the requests fit in the size, each variant gets exactly `max(0, floor(rarity * size / 100))` copies |
| `RarityPools.PoolShape` | Assets/_Core/Scripts/PfpCollectionGenerator.cs:417-437 | the pool is the unpadded list followed only by the padding index; its length is `max(unpadded, size)`, and exactly `size` when the rarities fit |
| `RarityPools.PoolEntries` | Assets/_Core/Scripts/PfpCollectionGenerator.cs:425-437 | with at least one variant every entry is a valid index; with none the pool is all `-1` |
| `RarityPools.PoolCounts` | Assets/_Core/Scripts/PfpCollectionGenerator.cs:397-437 | when the rarities fit, the pool holds each variant's copies, plus the shortfall on the padding variant |
| `RarityPools.PaddedPool` | Assets/_Core/Scripts/PfpCollectionGenerator.cs:423-437 | when the rarities fit, the pool is the unpadded list followed by the shortfall in copies of the padding index |
| `RarityPools.ShortfallExample` | Assets/_Core/Scripts/PfpCollectionGenerator.cs:397-437 | rarities 50 and 40 for ten items give five 0s and four 1s, padded with one 0 |
| `RarityPools.OversizedExample` | Assets/_Core/Scripts/PfpCollectionGenerator.cs:405-420 | rarities 100 and 50 for two items give `[0, 0, 1]`: the early stop ends only the current variant, so the pool is oversized |
| `RarityPools.BreakCutsExample` | Assets/_Core/Scripts/PfpCollectionGenerator.cs:405-414 | rarities 50 and 100 for two items give `[0, 1]`: variant 1 asks for two copies, but the list reaches the size after one and the `break` drops the other |
| `RarityPools.NegativeRarityExample` | Assets/_Core/Scripts/PfpCollectionGenerator.cs:397-437 | rarities 150, -100 and 50 sum to 100, yet for ten items the pool is ten 0s and five 2s: the `break` cuts variant 0, the count then stays past the size, and the oversized pool is kept |
| `CustomExtentions.Shuffle` | Assets/_Core/Scripts/CustomExtentions.cs:7-25 | in-place Fisher–Yates: one draw in `[0, index]` per index from the last down to 1, and the array is the swaps applied in order; a permutation of the input |
| `CustomExtentions.Swap` | Assets/_Core/Scripts/CustomExtentions.cs:23 | the tuple swap exchanges the two positions and leaves every other one as it was |
| `CustomExtentions.Steps` | Assets/_Core/Scripts/CustomExtentions.cs:16-24 | the loop's swaps applied in order, from the last index down; the length never changes |
| `CustomExtentions.StepsPermute` | Assets/_Core/Scripts/CustomExtentions.cs:16-24 | any sequence of swaps keeps the array's multiset of values |
| `CustomExtentions.StepsSettle` | Assets/_Core/Scripts/CustomExtentions.cs:16-24 | once the loop has passed a position, later iterations never change it |
| `CollectionGenerator.ReshuffleStack` | Assets/_Core/Scripts/PfpCollectionGenerator.cs:456-462 | a stack dumped top first, shuffled and pushed back equals the shuffle of the reversed stack, with the same elements |
| `CollectionGenerator.PfpCollectionGenerator.ShuffleTraitRarityIndices` | Assets/_Core/Scripts/PfpCollectionGenerator.cs:448-468 | every pool is replaced by a Fisher–Yates shuffle of itself read top first; the number of pools is unchanged |
| `CollectionGenerator.ReshuffledKeepsEntries` | Assets/_Core/Scripts/PfpCollectionGenerator.cs:454-463 | a reshuffle keeps every pool's multiset of entries |
| `CollectionGenerator.ReshuffledReady` | Assets/_Core/Scripts/PfpCollectionGenerator.cs:454-463 | pools that could serve the collection still can after a reshuffle |
| `CollectionGenerator.BuiltPoolsReady` | Assets/_Core/Scripts/PfpCollectionGenerator.cs:388-446 | when every trait has a variant, the built pools have at least `size` entries, all valid variant indices |
| `CollectionGenerator.PfpCollectionGenerator.PreparePools` | Assets/_Core/Scripts/PfpCollectionGenerator.cs:142-149 | starting from no pools, builds `TraitPools` and reshuffles them, leaving pools ready for the full collection |
| `CollectionGenerator.Draw` | Assets/_Core/Scripts/PfpCollectionGenerator.cs:237 | the k-th round of pops takes, from every pool, the entry k places below its top |
| `CollectionGenerator.Popped` | Assets/_Core/Scripts/PfpCollectionGenerator.cs:237 | one round of pops removes exactly the top of every pool and keeps the rest |
| `CollectionGenerator.PopEach` | Assets/_Core/Scripts/PfpCollectionGenerator.cs:234-250 | the per-trait loop pops every pool once, puts each popped value into its slot, and appends `_` + variant name to the id |
| `CollectionGenerator.PfpCollectionGenerator.PopCandidate` | Assets/_Core/Scripts/PfpCollectionGenerator.cs:234-250 | the same loop on the generator's pools and the item's slots, in place |
| `CollectionGenerator.NextDraw` | Assets/_Core/Scripts/PfpCollectionGenerator.cs:234-242 | after n draws, popping every pool hands out draw n of the starting pools, whose entries are valid variants |
| `CollectionGenerator.PfpCollectionGenerator.AddNextPfp` | Assets/_Core/Scripts/PfpCollectionGenerator.cs:226-268 | the next item gets the next draw, file name `Pad4(n + 1)` and its candidate id, and that id is not among the accepted ids |
| `CollectionGenerator.FreshCandidate` | Assets/_Core/Scripts/PfpCollectionGenerator.cs:252-260 | no accepted id equals the next candidate, so the duplicate-and-reshuffle branch never runs |
| `CollectionGenerator.PfpCollectionGenerator.AcceptNextPfp` | Assets/_Core/Scripts/PfpCollectionGenerator.cs:262-273 | one loop round adds exactly one accepted item, id and draw, and the pools are drawn down by one more |
| `CollectionGenerator.PfpCollectionGenerator.AllocateCollection` | Assets/_Core/Scripts/PfpCollectionGenerator.cs:202-274 | produces exactly `size` items; item k holds draw k, is named `Pad4(k + 1)`, has id number `k + 1`; ids are pairwise distinct; each pool lost exactly its top `size` entries |
| `CollectionGenerator.AcceptedIdsDistinct` | Assets/_Core/Scripts/PfpCollectionGenerator.cs:252-266 | accepted items carry pairwise distinct unique ids |
| `CollectionGenerator.ColumnOfDraws` | Assets/_Core/Scripts/PfpCollectionGenerator.cs:234-242 | what the items took from a pool, plus what remains in it, is the pool's original contents |
| `CollectionGenerator.ColumnsAccounted` | Assets/_Core/Scripts/PfpCollectionGenerator.cs:195-250 | after building, reshuffling and n draws, each trait's column of choices plus its remaining pool is exactly the built pool |
| `CollectionGenerator.PfpCollectionGenerator.GenerateJson` | Assets/_Core/Scripts/PfpCollectionGenerator.cs:187-290 | builds `TraitPools`, reshuffles them, and allocates `size` items with distinct ids whose variant choices per trait are drawn from that trait's pool (multiset accounting) |
| `CollectionGenerator.VariantFrequencies` | Assets/_Core/Scripts/PfpCollectionGenerator.cs:187-290 | when a trait's rarities are non-negative and sum to at most 100, the collection's choices for that trait are exactly that trait's pool as a multiset: each variant appears `max(0, floor(rarity * size / 100))` times, plus the shortfall on the padding variant |
| `PfpIds.Pad4` | Assets/_Core/Scripts/PfpCollectionGenerator.cs:226 | the `0000` number format gives at least four characters; `Pad4Value`, `Pad4Width` and `Pad4Wide` pin its contents |
| `PfpIds.Suffix` | Assets/_Core/Scripts/PfpCollectionGenerator.cs:248-249 | the names part of the id: empty without names, otherwise it starts with `_`, and it has at least one character per name |
| `PfpIds.CandidateId` | Assets/_Core/Scripts/PfpCollectionGenerator.cs:226-249 | the candidate id: the padded number followed by the names part, so at least four characters plus one per trait |
| `PfpIds.Pad4Value` | Assets/_Core/Scripts/PfpCollectionGenerator.cs:226 | the `0000` number format is all digits and reads back as the number |
| `PfpIds.Pad4Width` | Assets/_Core/Scripts/PfpCollectionGenerator.cs:226 | numbers below 10000 take exactly four characters |
| `PfpIds.Pad4Wide` | Assets/_Core/Scripts/PfpCollectionGenerator.cs:226 | numbers of 10000 and more get no leading zero: the format is their plain decimal notation, starting with a non-zero digit |
| `PfpIds.Pad4OfOne` | Assets/_Core/Scripts/PfpCollectionGenerator.cs:226 | the first item's number is `"0001"` |
| `PfpIds.NumberOfCandidateId` | Assets/_Core/Scripts/PfpCollectionGenerator.cs:226-249 | the leading digits of a candidate id read back as its number, whatever the variant names |
| `PfpIds.CandidateIdsDistinct` | Assets/_Core/Scripts/PfpCollectionGenerator.cs:226-249 | candidates with different numbers have different ids |
| `PfpIds.FirstIdExample` | Assets/_Core/Scripts/PfpCollectionGenerator.cs:226-249 | item 1 with variants Blue and Cap gets id `0001_Blue_Cap` |
| `CollectionGenerator.AttributesOf` | Assets/_Core/Scripts/PfpCollectionGenerator.cs:335-369 | what the attribute loop yields: at most one attribute per slot, and an error only at an existing slot |
| `CollectionGenerator.SelectAttributes` | Assets/_Core/Scripts/PfpCollectionGenerator.cs:335-369 | the attribute loop for one item equals `AttributesOf`: unused slots are skipped, and a slot without a trait or variant is an error |
| `CollectionGenerator.AttributesOfSucceeds` | Assets/_Core/Scripts/PfpCollectionGenerator.cs:335-369 | the attribute loop succeeds exactly when every slot is unused or names a valid variant of an existing trait |
| `CollectionGenerator.AttributesOfContents` | Assets/_Core/Scripts/PfpCollectionGenerator.cs:335-369 | on success there is exactly one attribute per used slot, in slot order: that trait's name and that variant's name |
| `CollectionGenerator.AttributesOfFirstFailure` | Assets/_Core/Scripts/PfpCollectionGenerator.cs:347-354 | on failure the error names the first unusable slot, and says whether that slot is past the traits or holds a bad variant index |
| `CollectionGenerator.AttributesPrefixFailure` | Assets/_Core/Scripts/PfpCollectionGenerator.cs:335-369 | a failure on the first slots is the failure of the whole item, because the loop stops there |
| `CollectionGenerator.UsedSlots` | Assets/_Core/Scripts/PfpCollectionGenerator.cs:338-347 | the used slots are in increasing order and each holds a value other than `-1` |
| `CollectionGenerator.UsedSlotsComplete` | Assets/_Core/Scripts/PfpCollectionGenerator.cs:338-347 | every slot holding a value other than `-1` is among the used slots |
| `CollectionGenerator.FullComboAttributes` | Assets/_Core/Scripts/PfpCollectionGenerator.cs:335-369 | an item with a valid variant for every trait yields one attribute per trait, in trait order |
| `CollectionGenerator.AcceptedAttributes` | Assets/_Core/Scripts/PfpCollectionGenerator.cs:323-369 | every generated item reads back with one attribute per trait, naming the trait and the variant it drew |
| `CollectionGenerator.PfpCollectionGenerator.GenerateFromJson` | Assets/_Core/Scripts/PfpCollectionGenerator.cs:306-386 | builds item k's record from its id, its score and its attributes, in order; stops at the first item whose attributes fail, reporting that error; no error only when every item has a record |
| `MetadataGenerator.CreateMetadata` | Assets/_Core/Scripts/MetadataGenerator.cs:20-30 | name is the id; description is `Dan_` + id; image is `ipfs://OurUri/` + id + `.png`; score and attributes pass through |
| `MetadataGenerator.ImageRoundTrip` | Assets/_Core/Scripts/MetadataGenerator.cs:28 | the id can be read back from the image address |
| `MetadataGenerator.MetadataDistinct` | Assets/_Core/Scripts/MetadataGenerator.cs:23-30 | items with distinct ids get distinct names, descriptions and image addresses |
| `Common.Reversed` | Assets/_Core/Scripts/PfpCollectionGenerator.cs:456 | `ToArray` of a stack lists it top first: the sequence read back to front |
| `Common.ReversedMultiset` | Assets/_Core/Scripts/PfpCollectionGenerator.cs:456 | reading a stack top first keeps its elements |

## Where the code departs from the intended design

The model follows the code in each of these cases.

- **Early stop when the pool fills.** The intended behaviour is to stop
  filling that trait's pool entirely. The code's `break` ends only the current
  variant's loop, and later variants still append, so the pool can be larger
  than the collection (`OversizedExample`, `AppendCopies`). With rarities that
  are non-negative and sum to at most 100 the pool is never oversized and the
  `break`, when reached, drops no copy (`RaritiesFit`); otherwise it can drop
  copies of a later variant (`BreakCutsExample`). Rarities are plain `int`s
  the code never checks, and a negative one lets a sum of 100 still overflow
  the pool (`NegativeRarityExample`).
- **Ties for the padding variant.** The intended choice is the first
  highest-rarity variant. The LINQ `Aggregate` keeps the accumulator only when
  its rarity is strictly larger, so it picks the last one
  (`IndexMaxIsLastMaximum`).
- **Duplicate ids.** The id starts with the item's own four-digit number
  (`Pad4`, never truncated), so two items never share an id
  (`CandidateIdsDistinct`, `FreshCandidate`).
  - The duplicate check at PfpCollectionGenerator.cs:252-260 can never fire.
    Its reshuffle-and-retry is a dead branch (`assert false` in `AddNextPfp`).
  - So a duplicate-id or allocation failure is never reported: not for two
    traits with only two possible combinations, and not for an empty
    configuration. In both cases the code produces the full collection with
    distinct ids.
- **Empty variant list.** The intended outcome is a fatal error. The code pads
  the pool with `-1` (`PoolEntries`) and fails only later, indexing variant
  `-1` during allocation. The model requires every trait to have a variant
  before Generate whenever the collection is not empty (`GenerateJson`'s
  `nftCollectionSize > 0 ==> EveryTraitHasVariants`); with size 0 nothing is
  popped and such a trait does no harm.

## Left out

- Rarity scores are floating point and are not modelled. This covers the
  running `traitRarity` weights (PfpCollectionGenerator.cs:245, :350) and the
  summed `traitScore` (:371-375).
- GenerateFromJson: each item's score is a parameter (`scores[k]`) instead of
  being computed. It is passed to `CreateMetadata` unchanged.
- Copies: `floor(rarity * size * 0.01f)` is computed in single precision in the
  source. The model uses the exact `floor(rarity * size / 100)`, which can
  differ when the float product lands just below an integer.
- GenerateJson: the `traitRarity` list and the `PfpJson` wrapper are not
  modelled. The list of items is returned instead of being stored in
  `pfpJson.pfps`.
- GenerateJson requires an empty pool list. The button is disabled once
  pressed, so a second run cannot happen.
- GenerateJson also requires a collection size of at least 0. With a negative
  size and non-negative rarities no copy is appended (`NegativeSizePool`).
  Padding adds nothing either, because it needs `Count < size` and the empty
  list is already longer than a negative size. So the pools are empty. With at
  least one trait the first `Pop()` (PfpCollectionGenerator.cs:237) then throws
  `InvalidOperationException`. With no traits the loop `pfpGenerated != count`
  (:220) ends only when the 32-bit counter wraps around to the count.
- Copies: `rarityPercent * nftCollectionSize` (:401) is a 32-bit `int` product
  that wraps around above 2^31. It is then converted to `float`, which is not
  exact above 2^24. The model uses the exact integer product.
- GenerateJson: `pfpGenerated` is a 32-bit `int`. The model counts items with an
  unbounded `nat`, so item numbers and ids never wrap.
- Randomness: `System.Random` is a nondeterministic choice in `[0, index]`.
  The model proves nothing about its distribution.
- Coroutines and frame waits (`yield`), `GC.Collect`, `Debug.Log`, timestamps
  and button state are not modelled.
- File I/O is not modelled:
  - writing `pfp.json` (PfpCollectionGenerator.cs:278-285)
  - reading it back
  - writing each metadata JSON file (MetadataGenerator.cs:31-36)
- Rendering is not modelled: raw images, textures, `SetActive` and
  `PfpImageGenerator`. GenerateFromJson is modelled as the Metadata button's
  call without images (`image = false`). With `image = true` the source also
  touches the raw image of unused slots.
- `NamePrefix` is declared and never used in the source. It is kept as a
  constant only.
- C# exceptions:
  - A pop on an empty stack is shown impossible by the preconditions
    (`PoolsReady`).
  - An index out of range while reading items back becomes a `SlotError`
    result.
