/**
 * The tag map written by `embed_album_art` (soptify.py): a cover image under
 * "covr" when an image URL is given, and the four text tags title, artist,
 * album artist and album when metadata is given. MP4 atoms are modelled as a
 * map from atom name to value; the container encoding is not.
 */
module Tagging {
  import opened Wrappers

  newtype Byte = b: int | 0 <= b < 256

  datatype TagValue = Text(text: string) | Cover(jpeg: seq<Byte>)

  type Tags = map<string, TagValue>

  /** The metadata dictionary, with string values. */
  type Metadata = map<string, string>

  const CoverKey: string := "covr"
  const TitleKey: string := "\U{00A9}nam"
  const ArtistKey: string := "\U{00A9}ART"
  const AlbumArtistKey: string := "aART"
  const AlbumKey: string := "\U{00A9}alb"

  /** The atoms written from metadata. */
  const TextKeys: set<string> := {TitleKey, ArtistKey, AlbumArtistKey, AlbumKey}

  /** Python truthiness of an optional string: present and non-empty. */
  predicate Truthy(s: Option<string>)
  {
    s.Some? && s.value != ""
  }

  /** Python truthiness of an optional dictionary: present and non-empty. */
  predicate HasMetadata(metadata: Option<Metadata>)
  {
    metadata.Some? && |metadata.value| > 0
  }

  /** `metadata.get(key, default)`. */
  function Get(metadata: Metadata, key: string, default: string): string
  {
    if key in metadata then metadata[key] else default
  }

  /** The album-artist value: "album_artist", else "artist", else the empty string. */
  function AlbumArtistOf(metadata: Metadata): string
  {
    Get(metadata, "album_artist", Get(metadata, "artist", ""))
  }

  /** The four text atoms written when metadata is present. */
  function TextTags(metadata: Metadata): (t: Tags)
    ensures t.Keys == TextKeys
  {
    map[TitleKey := Text(Get(metadata, "title", "")),
        ArtistKey := Text(Get(metadata, "artist", "")),
        AlbumArtistKey := Text(AlbumArtistOf(metadata)),
        AlbumKey := Text(Get(metadata, "album", ""))]
  }

  /**
   * The atoms after a successful `embed_album_art` on a file whose atoms were
   * `tags`; `image` is the fetched cover, read only when the URL is truthy.
   */
  function Embedded(tags: Tags, imageUrl: Option<string>, image: seq<Byte>, metadata: Option<Metadata>): Tags
  {
    var withCover := if Truthy(imageUrl) then tags[CoverKey := Cover(image)] else tags;
    if HasMetadata(metadata) then withCover + TextTags(metadata.value) else withCover
  }

  /** With metadata, each text atom holds its field or "" and the album artist falls back to the artist. */
  lemma EmbeddedText(tags: Tags, imageUrl: Option<string>, image: seq<Byte>, metadata: Metadata)
    requires |metadata| > 0
    ensures var r := Embedded(tags, imageUrl, image, Some(metadata));
      && TextKeys <= r.Keys
      && r[TitleKey] == Text(if "title" in metadata then metadata["title"] else "")
      && r[ArtistKey] == Text(if "artist" in metadata then metadata["artist"] else "")
      && r[AlbumKey] == Text(if "album" in metadata then metadata["album"] else "")
      && r[AlbumArtistKey] == Text(
           if "album_artist" in metadata then metadata["album_artist"]
           else if "artist" in metadata then metadata["artist"]
           else "")
  {
  }

  /** The cover atom is set exactly when the image URL is truthy. */
  lemma EmbeddedCover(tags: Tags, imageUrl: Option<string>, image: seq<Byte>, metadata: Option<Metadata>)
    ensures var r := Embedded(tags, imageUrl, image, metadata);
      && (Truthy(imageUrl) ==> CoverKey in r && r[CoverKey] == Cover(image))
      && (!Truthy(imageUrl) ==> (CoverKey in r <==> CoverKey in tags))
      && (!Truthy(imageUrl) && CoverKey in tags ==> r[CoverKey] == tags[CoverKey])
  {
  }

  /** Without metadata no text atom is written; no atom outside the five is ever touched. */
  lemma EmbeddedKeepsOthers(tags: Tags, imageUrl: Option<string>, image: seq<Byte>, metadata: Option<Metadata>, key: string)
    requires key != CoverKey
    requires key !in TextKeys || !HasMetadata(metadata)
    ensures var r := Embedded(tags, imageUrl, image, metadata);
      (key in r <==> key in tags) && (key in tags ==> r[key] == tags[key])
  {
  }
}
