/** The per-item metadata record handed to the publishing side. Only the
    record is modelled; writing it out as JSON is not. */
module MetadataGenerator {
  import opened Common

  datatype Attribute = Attribute(traitType: string, value: string)

  /** `traitCount` carries the item's score, copied as given. */
  datatype Metadata = Metadata(
    name: string,
    description: string,
    traitCount: real,
    image: string,
    attributes: seq<Attribute>)

  const BaseUri: string := "ipfs://OurUri/"
  const NamePrefix: string := "Dan"
  const Description: string := "Dan_"
  const ImageExtension: string := ".png"

  /** The record for one item. Each text field is built around the unique
      id, so the id can be read back from the description and the image;
      score and attributes pass through untouched. */
  function CreateMetadata(uniqueId: string, traitCount: real, attributes: seq<Attribute>): (m: Metadata)
    ensures m.name == uniqueId
    ensures |m.description| == |Description| + |uniqueId|
    ensures m.description[..|Description|] == "Dan_" && m.description[|Description|..] == uniqueId
    ensures |m.image| == |BaseUri| + |uniqueId| + |ImageExtension|
    ensures m.image[..|BaseUri|] == "ipfs://OurUri/"
    ensures m.image[|BaseUri|..|m.image| - |ImageExtension|] == uniqueId
    ensures m.image[|m.image| - |ImageExtension|..] == ".png"
    ensures m.traitCount == traitCount && m.attributes == attributes
  {
    Metadata(uniqueId, Description + uniqueId, traitCount, BaseUri + uniqueId + ImageExtension, attributes)
  }

  /** Reads the unique id back out of an image address, if it has the
      expected shape. */
  function IdOfImage(image: string): Option<string>
  {
    if |image| >= |BaseUri| + |ImageExtension|
       && image[..|BaseUri|] == BaseUri
       && image[|image| - |ImageExtension|..] == ImageExtension
    then Some(image[|BaseUri|..|image| - |ImageExtension|])
    else None
  }

  /** The image address determines the id it was made from. */
  lemma ImageRoundTrip(uniqueId: string, traitCount: real, attributes: seq<Attribute>)
    ensures IdOfImage(CreateMetadata(uniqueId, traitCount, attributes).image) == Some(uniqueId)
  {
  }

  /** Items with different ids get records with different names,
      descriptions and image addresses. */
  lemma MetadataDistinct(id1: string, s1: real, a1: seq<Attribute>, id2: string, s2: real, a2: seq<Attribute>)
    requires id1 != id2
    ensures var m1, m2 := CreateMetadata(id1, s1, a1), CreateMetadata(id2, s2, a2);
      m1.name != m2.name && m1.description != m2.description && m1.image != m2.image
  {
    ImageRoundTrip(id1, s1, a1);
    ImageRoundTrip(id2, s2, a2);
  }
}
