/**
 * Playlist-identifier extraction (`extract_playlist_id` in tracklist.py):
 * the search for the pattern  playlist/([a-zA-Z0-9]+)  written out as a
 * scanner. The identifier is the maximal run of ASCII letters and digits that
 * follows the leftmost "playlist/" which is followed by at least one of them.
 */
module PlaylistUrl {
  import opened Wrappers

  const Marker: string := "playlist/"

  /** The character class [a-zA-Z0-9]: ASCII letters and digits only. */
  predicate IsAlnum(c: char)
  {
    ('a' <= c <= 'z') || ('A' <= c <= 'Z') || ('0' <= c <= '9')
  }

  predicate AllAlnum(s: string)
  {
    forall i :: 0 <= i < |s| ==> IsAlnum(s[i])
  }

  /** The pattern matches at position `p`: the marker, then one identifier character. */
  predicate MatchAt(s: string, p: nat)
  {
    p + |Marker| < |s| && s[p..p + |Marker|] == Marker && IsAlnum(s[p + |Marker|])
  }

  /**
   * What the regular-expression search promises: `p` is the leftmost match,
   * and `id` is the non-empty, maximal identifier run that starts right after
   * the marker there.
   */
  ghost predicate IsIdMatch(s: string, p: nat, id: string)
  {
    && MatchAt(s, p)
    && (forall q :: 0 <= q < p ==> !MatchAt(s, q))
    && |id| > 0
    && p + |Marker| + |id| <= |s|
    && s[p + |Marker|..p + |Marker| + |id|] == id
    && AllAlnum(id)
    && (p + |Marker| + |id| == |s| || !IsAlnum(s[p + |Marker| + |id|]))
  }

  /** End of the run of identifier characters that starts at `j` (greedy `+`). */
  function RunEnd(s: string, j: nat): (k: nat)
    requires j <= |s|
    ensures j <= k <= |s|
    ensures forall m :: j <= m < k ==> IsAlnum(s[m])
    ensures k == |s| || !IsAlnum(s[k])
    decreases |s| - j
  {
    if j < |s| && IsAlnum(s[j]) then RunEnd(s, j + 1) else j
  }

  /** Scans positions `from`, `from + 1`, ... for the first match. */
  function FindMatch(s: string, from: nat): (r: Option<nat>)
    ensures r.Some? ==> from <= r.value && MatchAt(s, r.value)
    ensures r.Some? ==> forall q :: from <= q < r.value ==> !MatchAt(s, q)
    ensures r.None? ==> forall q :: from <= q ==> !MatchAt(s, q)
    decreases |s| - from
  {
    if from + |Marker| >= |s| then None
    else if MatchAt(s, from) then Some(from)
    else FindMatch(s, from + 1)
  }

  /** `extract_playlist_id`: the identifier, or None when the pattern never matches. */
  function ExtractPlaylistId(url: string): (r: Option<string>)
    ensures r.None? <==> forall p :: 0 <= p < |url| ==> !MatchAt(url, p)
    ensures r.Some? ==> exists p :: IsIdMatch(url, p, r.value)
  {
    match FindMatch(url, 0)
    case None => None
    case Some(p) =>
      var id := url[p + |Marker|..RunEnd(url, p + |Marker|)];
      assert IsIdMatch(url, p, id);
      Some(id)
  }

  /** A maximal run of identifier characters starting at `start` ends where RunEnd says. */
  lemma {:induction false} MaximalRunEnd(s: string, start: nat, id: string)
    requires start + |id| <= |s|
    requires s[start..start + |id|] == id && AllAlnum(id)
    requires start + |id| == |s| || !IsAlnum(s[start + |id|])
    ensures RunEnd(s, start) == start + |id|
    decreases |id|
  {
    if id != [] {
      assert s[start] == id[0];
      assert s[start + 1..start + 1 + |id[1..]|] == id[1..];
      MaximalRunEnd(s, start + 1, id[1..]);
    }
  }

  /** The search result is determined: one leftmost match, one maximal run. */
  lemma IdMatchUnique(s: string, p1: nat, id1: string, p2: nat, id2: string)
    requires IsIdMatch(s, p1, id1) && IsIdMatch(s, p2, id2)
    ensures p1 == p2 && id1 == id2
  {
    assert p1 == p2;
    MaximalRunEnd(s, p1 + |Marker|, id1);
    MaximalRunEnd(s, p2 + |Marker|, id2);
  }

  /** Any identifier that meets the search's promise is the one extracted. */
  lemma ExtractIsTheMatch(url: string, p: nat, id: string)
    requires IsIdMatch(url, p, id)
    ensures ExtractPlaylistId(url) == Some(id)
  {
    var r := ExtractPlaylistId(url);
    assert r.Some?;
    var p' :| IsIdMatch(url, p', r.value);
    IdMatchUnique(url, p, id, p', r.value);
  }

  /** A position whose character is not the marker's first letter is no match. */
  lemma NoMatchWithoutP(s: string, q: nat)
    requires q < |s| && s[q] != 'p'
    ensures !MatchAt(s, q)
  {
    assert q + |Marker| <= |s| ==> s[q..q + |Marker|][0] == s[q];
  }

  /** The marker ends in a slash, so a string without one has no match anywhere. */
  lemma NoMatchWithoutSlash(s: string)
    requires '/' !in s
    ensures forall p :: !MatchAt(s, p)
  {
    forall p: nat | p + |Marker| < |s|
      ensures !MatchAt(s, p)
    {
      assert s[p..p + |Marker|][8] == s[p + 8];
    }
  }

  /**
   * A "playlist/" followed by a non-identifier character does not match; the
   * search goes on to the next one: "x/playlist/-/playlist/Ab9?z" gives "Ab9".
   */
  lemma ExtractSkipsEmptyMatch(url: string)
    requires url == "x/playlist/-/playlist/Ab9?z"
    ensures ExtractPlaylistId(url) == Some("Ab9")
  {
    var head := url[..13];
    assert head == "x/playlist/-/";
    assert !MatchAt(url, 2) by {
      assert url[2 + |Marker|] == head[11] == '-';
    }
    forall q | 0 <= q < 13 && q != 2
      ensures !MatchAt(url, q)
    {
      assert url[q] == head[q] != 'p';
      NoMatchWithoutP(url, q);
    }
    var tail := url[13..];
    assert tail == "playlist/Ab9?z";
    assert url[13..22] == tail[..9] == Marker;
    assert url[22..25] == tail[9..12] == "Ab9";
    assert url[22] == tail[9] && url[25] == tail[12];
    ExtractIsTheMatch(url, 13, "Ab9");
  }

  /** The URI form "spotify:playlist:<id>" has no "playlist/" and yields None. */
  lemma ExtractRejectsUri(url: string)
    requires url == "spotify:playlist:AB12"
    ensures ExtractPlaylistId(url) == None
  {
    assert '/' !in url;
    NoMatchWithoutSlash(url);
  }
}
