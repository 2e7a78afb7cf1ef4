/**
 * Playlist resolution (`get_playlist_tracks` in tracklist.py): the catalog's
 * result pages are walked in order until one says there is no next page,
 * items whose track is null are skipped, and every other item becomes one
 * track descriptor.
 *
 * The catalog itself is not modelled: the pages it would serve for the
 * playlist, in order, are the input `pages`; `playlist_items` returns
 * `pages[0]` and each call of `next` returns the following page, or nothing
 * (a falsy result) once the sequence is exhausted.
 */
module Tracklist {
  import opened Wrappers
  import PlaylistUrl

  datatype Image = Image(url: string)
  datatype Artist = Artist(name: string)
  datatype Album = Album(name: string, images: seq<Image>)
  datatype Track = Track(name: string, artists: seq<Artist>, album: Album)
  /** One playlist entry; `track` is None where the catalog returns null. */
  datatype Item = Item(track: Option<Track>)
  /** One result page; `hasNext` is the truthiness of its `next` link. */
  datatype Page = Page(items: seq<Item>, hasNext: bool)

  /** The dictionary built per track (keys title, artist, album, album_artist, album_art_url). */
  datatype Descriptor = Descriptor(
    title: string,
    artist: string,
    album: string,
    albumArtist: string,
    albumArtUrl: Option<string>)

  const ArtistSeparator: string := ", "

  /** `sep.join(parts)`. */
  function Join(parts: seq<string>, sep: string): string
  {
    if |parts| == 0 then ""
    else if |parts| == 1 then parts[0]
    else parts[0] + sep + Join(parts[1..], sep)
  }

  /** Where `parts[k]` starts inside `Join(parts, sep)`. */
  function JoinOffset(parts: seq<string>, sep: string, k: nat): nat
    requires k < |parts|
  {
    if k == 0 then 0 else |parts[0]| + |sep| + JoinOffset(parts[1..], sep, k - 1)
  }

  /**
   * `parts[k]` stands at its offset inside the joined string, followed by a
   * separator unless it is the last part, in which case the string ends there.
   */
  ghost predicate PartAt(parts: seq<string>, sep: string, k: nat)
    requires k < |parts|
  {
    var o, j := JoinOffset(parts, sep, k), Join(parts, sep);
    && o + |parts[k]| <= |j|
    && j[o..o + |parts[k]|] == parts[k]
    && (k + 1 < |parts| ==>
          o + |parts[k]| + |sep| <= |j| && j[o + |parts[k]|..o + |parts[k]| + |sep|] == sep)
    && (k + 1 == |parts| ==> o + |parts[k]| == |j|)
  }

  /**
   * The joined string holds every part, in order, at its offset, and a
   * separator right after every part but the last.
   */
  lemma {:induction false} JoinAt(parts: seq<string>, sep: string, k: nat)
    requires k < |parts|
    ensures PartAt(parts, sep, k)
  {
    if k == 0 {
      JoinFirst(parts, sep);
    } else {
      JoinAt(parts[1..], sep, k - 1);
      JoinShift(parts, sep, k);
    }
  }

  /** The first part opens the joined string. */
  lemma JoinFirst(parts: seq<string>, sep: string)
    requires |parts| > 0
    ensures PartAt(parts, sep, 0)
  {
    if |parts| > 1 {
      var rest := Join(parts[1..], sep);
      assert Join(parts, sep) == parts[0] + (sep + rest);
      SliceWithin(parts[0], sep + rest, 0, |parts[0]|);
      SliceAfter(parts[0], sep + rest, 0, |sep|);
      SliceWithin(sep, rest, 0, |sep|);
    }
  }

  /** A part found in the join of the tail is found, shifted, in the whole join. */
  lemma JoinShift(parts: seq<string>, sep: string, k: nat)
    requires 0 < k < |parts|
    requires PartAt(parts[1..], sep, k - 1)
    ensures PartAt(parts, sep, k)
  {
    var head, rest := parts[0] + sep, Join(parts[1..], sep);
    assert Join(parts, sep) == head + rest;
    var o := JoinOffset(parts[1..], sep, k - 1);
    assert parts[1..][k - 1] == parts[k];
    SliceAfter(head, rest, o, o + |parts[k]|);
    if k + 1 < |parts| {
      SliceAfter(head, rest, o + |parts[k]|, o + |parts[k]| + |sep|);
    }
  }

  /** A slice of `a` read inside `a + b`. */
  lemma SliceWithin(a: string, b: string, i: nat, j: nat)
    requires i <= j <= |a|
    ensures (a + b)[i..j] == a[i..j]
  {
  }

  /** A slice of `b` read inside `a + b`. */
  lemma SliceAfter(a: string, b: string, i: nat, j: nat)
    requires i <= j <= |b|
    ensures (a + b)[|a| + i..|a| + j] == b[i..j]
  {
  }

  function ArtistNames(artists: seq<Artist>): (names: seq<string>)
    ensures |names| == |artists|
    ensures forall i :: 0 <= i < |artists| ==> names[i] == artists[i].name
  {
    if artists == [] then [] else [artists[0].name] + ArtistNames(artists[1..])
  }

  /** The first image's URL when the album has images, otherwise None. */
  function CoverUrl(album: Album): Option<string>
  {
    if |album.images| > 0 then Some(album.images[0].url) else None
  }

  /** The descriptor built for one non-null track. */
  function Describe(t: Track): (d: Descriptor)
    ensures d.title == t.name && d.album == t.album.name
    ensures d.artist == Join(ArtistNames(t.artists), ArtistSeparator)
    ensures d.albumArtist == d.artist
    ensures d.albumArtUrl.None? <==> t.album.images == []
    ensures d.albumArtUrl.Some? ==> d.albumArtUrl.value == t.album.images[0].url
  {
    var artist := Join(ArtistNames(t.artists), ArtistSeparator);
    Descriptor(t.name, artist, t.album.name, artist, CoverUrl(t.album))
  }

  /** The descriptors of one page's items, null tracks skipped. */
  function ItemDescriptors(items: seq<Item>): seq<Descriptor>
  {
    if items == [] then []
    else
      var last := items[|items| - 1];
      ItemDescriptors(items[..|items| - 1]) + (if last.track.Some? then [Describe(last.track.value)] else [])
  }

  /** The descriptors of several pages, page after page. */
  function PageDescriptors(pages: seq<Page>): seq<Descriptor>
  {
    if pages == [] then []
    else PageDescriptors(pages[..|pages| - 1]) + ItemDescriptors(pages[|pages| - 1].items)
  }

  /** How many pages the walk reads: up to and including the first without a next link. */
  function VisitedCount(pages: seq<Page>): (n: nat)
    ensures n <= |pages|
    ensures |pages| > 0 ==> n > 0
    ensures forall i :: 0 <= i < n - 1 ==> pages[i].hasNext
    ensures n < |pages| ==> !pages[n - 1].hasNext
    ensures n == |pages| && n > 0 && pages[n - 1].hasNext ==> forall i :: 0 <= i < n ==> pages[i].hasNext
  {
    if pages == [] then 0
    else if !pages[0].hasNext then 1
    else 1 + VisitedCount(pages[1..])
  }

  /**
   * `VisitedCount` is the only count with its characterisation: a walk that
   * stops after page `n`, where every earlier page had a next link and page
   * `n` has none (or is the last), visited `VisitedCount(pages)` pages.
   */
  lemma {:induction false} VisitedCountOf(pages: seq<Page>, n: nat)
    requires n <= |pages| && (|pages| > 0 ==> n > 0)
    requires forall i :: 0 <= i < n - 1 ==> pages[i].hasNext
    requires n < |pages| ==> !pages[n - 1].hasNext
    ensures VisitedCount(pages) == n
  {
    if pages != [] && pages[0].hasNext {
      VisitedCountOf(pages[1..], n - 1);
    }
  }

  /** The descriptors `get_playlist_tracks` returns for `url`. */
  function PlaylistTracks(url: string, pages: seq<Page>): seq<Descriptor>
  {
    if PlaylistUrl.ExtractPlaylistId(url).None? then []
    else PageDescriptors(pages[..VisitedCount(pages)])
  }

  function TotalItems(pages: seq<Page>): nat
  {
    if pages == [] then 0 else |pages[0].items| + TotalItems(pages[1..])
  }

  function NullItems(items: seq<Item>): nat
  {
    if items == [] then 0 else (if items[0].track.None? then 1 else 0) + NullItems(items[1..])
  }

  function NullTracks(pages: seq<Page>): nat
  {
    if pages == [] then 0 else NullItems(pages[0].items) + NullTracks(pages[1..])
  }

  /** Descriptors of a split item list are those of its halves, in order. */
  lemma {:induction false} ItemDescriptorsAppend(a: seq<Item>, b: seq<Item>)
    ensures ItemDescriptors(a + b) == ItemDescriptors(a) + ItemDescriptors(b)
    decreases |b|
  {
    if b == [] {
      assert a + b == a;
    } else {
      var b' := b[..|b| - 1];
      assert (a + b)[..|a + b| - 1] == a + b';
      assert (a + b)[|a + b| - 1] == b[|b| - 1];
      ItemDescriptorsAppend(a, b');
    }
  }

  /** An item contributes its track's descriptor, or nothing when the track is null. */
  lemma ItemDescriptorsSingle(item: Item)
    ensures ItemDescriptors([item]) == if item.track.Some? then [Describe(item.track.value)] else []
  {
    assert [item][..0] == [];
  }

  /** Descriptors of a split page list are those of its halves, in order. */
  lemma {:induction false} PageDescriptorsAppend(a: seq<Page>, b: seq<Page>)
    ensures PageDescriptors(a + b) == PageDescriptors(a) + PageDescriptors(b)
    decreases |b|
  {
    if b == [] {
      assert a + b == a;
    } else {
      var b' := b[..|b| - 1];
      assert (a + b)[..|a + b| - 1] == a + b';
      assert (a + b)[|a + b| - 1] == b[|b| - 1];
      PageDescriptorsAppend(a, b');
    }
  }

  /** One descriptor per item whose track is not null. */
  lemma {:induction false} ItemDescriptorsCount(items: seq<Item>)
    ensures |ItemDescriptors(items)| == |items| - NullItems(items)
  {
    if items != [] {
      ItemDescriptorsAppend([items[0]], items[1..]);
      assert [items[0]] + items[1..] == items;
      ItemDescriptorsSingle(items[0]);
      ItemDescriptorsCount(items[1..]);
    }
  }

  /** Over several pages: all items minus the null ones. */
  lemma {:induction false} PageDescriptorsCount(pages: seq<Page>)
    ensures |PageDescriptors(pages)| == TotalItems(pages) - NullTracks(pages)
  {
    if pages != [] {
      PageDescriptorsAppend([pages[0]], pages[1..]);
      assert [pages[0]] + pages[1..] == pages;
      assert [pages[0]][..0] == [];
      ItemDescriptorsCount(pages[0].items);
      PageDescriptorsCount(pages[1..]);
    }
  }

  /** The catalog response for the `i`-th request: a page, or nothing past the end. */
  function Fetch(pages: seq<Page>, i: nat): Option<Page>
  {
    if i < |pages| then Some(pages[i]) else None
  }

  /**
   * `get_playlist_tracks`. `requests` counts the catalog calls made
   * (`playlist_items` and `next`); `visited` counts the pages read.
   */
  method GetPlaylistTracks(url: string, pages: seq<Page>)
    returns (tracks: seq<Descriptor>, visited: nat, requests: nat)
    ensures PlaylistUrl.ExtractPlaylistId(url).None? ==> tracks == [] && visited == 0 && requests == 0
    ensures PlaylistUrl.ExtractPlaylistId(url).Some? ==>
      && visited == VisitedCount(pages)
      && tracks == PageDescriptors(pages[..visited])
      && |tracks| == TotalItems(pages[..visited]) - NullTracks(pages[..visited])
      && (requests == visited || requests == visited + 1)
      && (requests == visited + 1 <==> visited == |pages| && (visited == 0 || pages[visited - 1].hasNext))
  {
    tracks, visited, requests := [], 0, 0;
    var playlistId := PlaylistUrl.ExtractPlaylistId(url);
    if playlistId.None? {
      return;
    }
    var results := Fetch(pages, 0);
    requests := 1;
    while results.Some?
      invariant visited <= |pages|
      invariant results.Some? ==> visited < |pages| && results.value == pages[visited]
      invariant results.None? ==> visited == |pages|
      invariant forall i :: 0 <= i < visited ==> pages[i].hasNext
      invariant tracks == PageDescriptors(pages[..visited])
      invariant requests == visited + 1
      decreases |pages| - visited
    {
      var page := results.value;
      ghost var before := tracks;
      for k := 0 to |page.items|
        invariant tracks == before + ItemDescriptors(page.items[..k])
      {
        var item := page.items[k];
        assert page.items[..k + 1][..k] == page.items[..k] && page.items[..k + 1][k] == item;
        assert ItemDescriptors(page.items[..k + 1])
          == ItemDescriptors(page.items[..k]) + (if item.track.Some? then [Describe(item.track.value)] else []);
        if item.track.Some? {
          var track := item.track.value;
          tracks := tracks + [Describe(track)];
        }
      }
      assert page.items[..|page.items|] == page.items;
      assert pages[..visited + 1][..visited] == pages[..visited];
      visited := visited + 1;
      if page.hasNext {
        results := Fetch(pages, visited);
        requests := requests + 1;
      } else {
        break;
      }
    }
    VisitedCountOf(pages, visited);
    PageDescriptorsCount(pages[..visited]);
  }
}
