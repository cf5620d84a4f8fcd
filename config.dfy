/** The authoring configuration: layers of traits, each trait a list of variants. */
module NftConfig {

  /** One variant of a trait (the texture it carries is only for rendering). */
  datatype NftImage = NftImage(rarityPercent: int, name: string)

  /** A trait: a named layer with its variants in authoring order. */
  datatype NftTrait = NftTrait(name: string, nftImages: seq<NftImage>)

  /** All traits, bottom layer first. */
  datatype NftLayers = NftLayers(nftTraits: seq<NftTrait>)

  /** Every trait offers at least one variant. */
  predicate EveryTraitHasVariants(layers: NftLayers)
  {
    forall t :: 0 <= t < |layers.nftTraits| ==> layers.nftTraits[t].nftImages != []
  }
}
