/**
 * The download pipeline of soptify.py: query construction, first-result
 * selection (`search_and_download`), the output path and download
 * (`download`), tagging (`embed_album_art`) and the per-track loop of the
 * script's entry point.
 *
 * The network, the video platform and the tagging library are not modelled:
 * what they would answer for one track is the input record `TrackIo`. The
 * `./music/` directory is the object `MusicLibrary`.
 */
module Pipeline {
  import opened Wrappers
  import opened Filenames
  import opened Tagging
  import Tracklist

  // ---------------------------------------------------------------- values

  /** One search hit: its title and its watch URL. */
  datatype Video = Video(title: string, watchUrl: string)

  /** What the tagging library and the image fetch do for one file. */
  datatype TagIo = TagIo(
    opens: bool,                 // MP4(file_path) reads the file
    image: Option<seq<Byte>>,    // requests.get(...).content, None when it raises
    saves: bool)                 // audio.save() succeeds

  /** What the video platform does for one download. */
  datatype DownloadIo = DownloadIo(
    videoTitle: string,          // yt.title of the video at the URL
    streamOk: bool,              // an audio-only stream exists and downloads
    streamTags: Tags,            // atoms the downloaded file comes with
    tagging: TagIo)

  /**
   * What the platform does for one track: the search hits (None when the
   * search itself raises), then the download.
   */
  datatype TrackIo = TrackIo(results: Option<seq<Video>>, download: DownloadIo)

  /** A downloaded file: the watch URL it was fetched from and its atoms. */
  datatype AudioFile = AudioFile(source: string, tags: Tags)

  datatype TagOutcome = Tagged | TagFailed

  datatype TrackOutcome =
    | NoResults                                  // "No results found", track skipped
    | Saved(path: string, tagging: TagOutcome)   // file written, then tagged or not
    | Crashed                                    // an uncaught search or download error ends the run

  /** The observable state of the music directory. */
  datatype LibState = LibState(dirExists: bool, files: map<string, AudioFile>)

  const MusicDir: string := "./music/"
  const Extension: string := ".m4a"

  // ------------------------------------------------------------ pure parts

  /** The search query for a track. */
  function Query(d: Tracklist.Descriptor): (q: string)
    ensures |q| == |d.title| + |d.artist| + 19
    ensures q[..|d.title|] == d.title
    ensures q[|d.title|..|d.title| + 4] == " by "
    ensures q[|d.title| + 4..|d.title| + 4 + |d.artist|] == d.artist
    ensures q[|q| - 15..] == " Official Audio"
  {
    d.title + " by " + d.artist + " Official Audio"
  }

  /** `os.path.join(a, b)` on POSIX: an absolute `b` replaces `a`. */
  function PathJoin(a: string, b: string): string
  {
    if |b| > 0 && b[0] == '/' then b
    else if a == [] || a[|a| - 1] == '/' then a + b
    else a + "/" + b
  }

  /** `title or yt.title`: the given title unless it is None or empty. */
  function ChosenTitle(title: Option<string>, videoTitle: string): string
  {
    if Truthy(title) then title.value else videoTitle
  }

  /** The file a download is saved to. */
  function OutputPath(title: Option<string>, videoTitle: string): string
  {
    PathJoin(MusicDir, Sanitize(ChosenTitle(title, videoTitle)) + Extension)
  }

  /**
   * The file lands directly in the music directory, named after the given
   * title when it is truthy and after the video's own title otherwise.
   */
  lemma OutputPathShape(title: Option<string>, videoTitle: string)
    ensures Truthy(title) ==> OutputPath(title, videoTitle) == MusicDir + Sanitize(title.value) + Extension
    ensures !Truthy(title) ==> OutputPath(title, videoTitle) == MusicDir + Sanitize(videoTitle) + Extension
    ensures var name := Sanitize(ChosenTitle(title, videoTitle));
      '/' !in name && '\\' !in name
  {
    var name := Sanitize(ChosenTitle(title, videoTitle));
    SanitizeMembers(ChosenTitle(title, videoTitle), '/');
    SanitizeMembers(ChosenTitle(title, videoTitle), '\\');
    assert (name + Extension)[0] == '/' ==> '/' in name || |name| == 0;
  }

  /** The metadata dictionary a descriptor is passed as (its text fields). */
  function MetadataOf(d: Tracklist.Descriptor): (m: Metadata)
    ensures |m| > 0
  {
    var m := map["title" := d.title, "artist" := d.artist, "album" := d.album, "album_artist" := d.albumArtist];
    assert "title" in m;
    m
  }

  /**
   * The dictionary has exactly the four keys `embed_album_art` reads, each
   * holding the descriptor's field of that name.
   */
  lemma MetadataFields(d: Tracklist.Descriptor)
    ensures var m := MetadataOf(d);
      && m.Keys == {"title", "artist", "album", "album_artist"}
      && m["title"] == d.title && m["artist"] == d.artist
      && m["album"] == d.album && m["album_artist"] == d.albumArtist
  {
  }

  // ------------------------------------------------------ state transitions

  /** `embed_album_art(file_path, image_url, metadata)`: all or nothing reaches the file. */
  function EmbedStep(st: LibState, filePath: string, imageUrl: Option<string>,
                     metadata: Option<Metadata>, io: TagIo): (LibState, TagOutcome)
  {
    if filePath in st.files && io.opens && (Truthy(imageUrl) ==> io.image.Some?) && io.saves then
      var f := st.files[filePath];
      var image := if io.image.Some? then io.image.value else [];
      (st.(files := st.files[filePath := f.(tags := Embedded(f.tags, imageUrl, image, metadata))]), Tagged)
    else
      (st, TagFailed)
  }

  /** `download(url, title, image_url, metadata)`. */
  function DownloadStep(st: LibState, url: string, title: Option<string>, imageUrl: Option<string>,
                        metadata: Option<Metadata>, io: DownloadIo): (LibState, TrackOutcome)
  {
    var withDir := st.(dirExists := true);
    if !io.streamOk then (withDir, Crashed)
    else
      var path := OutputPath(title, io.videoTitle);
      var saved := withDir.(files := withDir.files[path := AudioFile(url, io.streamTags)]);
      var (tagged, outcome) := EmbedStep(saved, path, imageUrl, metadata, io.tagging);
      (tagged, Saved(path, outcome))
  }

  /** `search_and_download(query, image_url, metadata)` given the search hits. */
  function SearchStep(st: LibState, imageUrl: Option<string>, metadata: Option<Metadata>,
                      io: TrackIo): (LibState, TrackOutcome)
  {
    match io.results
    case None => (st, Crashed)
    case Some(hits) =>
      if |hits| == 0 then (st, NoResults)
      else DownloadStep(st, hits[0].watchUrl, Some(hits[0].title), imageUrl, metadata, io.download)
  }

  /** One track of the entry point's loop. */
  function TrackStep(st: LibState, d: Tracklist.Descriptor, io: TrackIo): (LibState, TrackOutcome)
  {
    SearchStep(st, d.albumArtUrl, Some(MetadataOf(d)), io)
  }

  /** The result of the entry point's loop: final state, queries issued, per-track outcomes. */
  datatype RunResult = RunResult(state: LibState, queries: seq<string>, outcomes: seq<TrackOutcome>)

  /** What one track does to the library: the state after it and its outcome. */
  type Step = (LibState, Tracklist.Descriptor, TrackIo) -> (LibState, TrackOutcome)

  /** The loop over `songs` with per-track `step`, stopping after the first crash. */
  function Run(step: Step, st: LibState, songs: seq<Tracklist.Descriptor>, io: seq<TrackIo>): RunResult
    requires |io| == |songs|
    decreases |songs|, 1
  {
    if songs == [] then RunResult(st, [], []) else RunFrom(step, st, songs, io)
  }

  /** The loop on a non-empty list: the first track, then the rest unless it crashed. */
  function RunFrom(step: Step, st: LibState, songs: seq<Tracklist.Descriptor>, io: seq<TrackIo>): RunResult
    requires |io| == |songs| > 0
    decreases |songs|, 0
  {
    var (st1, outcome) := step(st, songs[0], io[0]);
    if outcome.Crashed? then RunResult(st1, [Query(songs[0])], [outcome])
    else
      var rest := Run(step, st1, songs[1..], io[1..]);
      RunResult(rest.state, [Query(songs[0])] + rest.queries, [outcome] + rest.outcomes)
  }

  // --------------------------------------------------------------- lemmas

  /** An empty search result skips the track: nothing is downloaded or changed. */
  lemma NoResultsSkips(st: LibState, imageUrl: Option<string>, metadata: Option<Metadata>, io: TrackIo)
    requires io.results == Some([])
    ensures SearchStep(st, imageUrl, metadata, io) == (st, NoResults)
  {
  }

  /**
   * Otherwise exactly the first hit is downloaded: the file named after its
   * title (or the video's own title) holds that hit's stream, the directory
   * exists, and every other file is as it was.
   */
  lemma FirstResultDownloaded(st: LibState, imageUrl: Option<string>, metadata: Option<Metadata>, io: TrackIo)
    requires io.results.Some? && |io.results.value| > 0 && io.download.streamOk
    ensures var (st', outcome) := SearchStep(st, imageUrl, metadata, io);
      var path := OutputPath(Some(io.results.value[0].title), io.download.videoTitle);
      var image := if io.download.tagging.image.Some? then io.download.tagging.image.value else [];
      && outcome.Saved? && outcome.path == path
      && st'.dirExists
      && st'.files.Keys == st.files.Keys + {path}
      && st'.files[path].source == io.results.value[0].watchUrl
      && (outcome.tagging == TagFailed ==> st'.files[path].tags == io.download.streamTags)
      && (outcome.tagging == Tagged ==>
            st'.files[path].tags == Embedded(io.download.streamTags, imageUrl, image, metadata))
      && forall p :: p in st.files && p != path ==> st'.files[p] == st.files[p]
  {
  }

  /** A failing download crashes the run after creating the directory, and writes no file. */
  lemma DownloadCrash(st: LibState, imageUrl: Option<string>, metadata: Option<Metadata>, io: TrackIo)
    requires io.results.Some? && |io.results.value| > 0 && !io.download.streamOk
    ensures SearchStep(st, imageUrl, metadata, io) == (st.(dirExists := true), Crashed)
  {
  }

  /**
   * A crash writes no file; the directory is created first unless it is the
   * search itself that raised.
   */
  lemma CrashWritesNothing(st: LibState, imageUrl: Option<string>, metadata: Option<Metadata>, io: TrackIo)
    ensures var (st', outcome) := SearchStep(st, imageUrl, metadata, io);
      && (outcome.Crashed? <==> io.results.None? || (|io.results.value| > 0 && !io.download.streamOk))
      && (outcome.Crashed? ==> st'.files == st.files)
      && (outcome.Crashed? ==> (st'.dirExists <==> st.dirExists || io.results.Some?))
  {
  }

  /**
   * End to end for one track: when the first hit downloads and tagging
   * succeeds, the saved file's text atoms are the descriptor's title, artist,
   * album artist and album, and it holds the fetched cover exactly when the
   * descriptor's cover URL is non-empty (otherwise whatever cover the stream
   * came with); when tagging fails, the file keeps the stream's atoms.
   */
  lemma TrackTags(st: LibState, d: Tracklist.Descriptor, io: TrackIo)
    requires io.results.Some? && |io.results.value| > 0 && io.download.streamOk
    ensures var (st', outcome) := TrackStep(st, d, io);
      && outcome.Saved? && outcome.path in st'.files
      && (outcome.tagging == TagFailed ==> st'.files[outcome.path].tags == io.download.streamTags)
      && (outcome.tagging == Tagged ==>
            var t := st'.files[outcome.path].tags;
            && TextKeys <= t.Keys
            && t[TitleKey] == Text(d.title) && t[ArtistKey] == Text(d.artist)
            && t[AlbumArtistKey] == Text(d.albumArtist) && t[AlbumKey] == Text(d.album)
            && (Truthy(d.albumArtUrl) ==> CoverKey in t && t[CoverKey] == Cover(io.download.tagging.image.value))
            && (!Truthy(d.albumArtUrl) ==> (CoverKey in t <==> CoverKey in io.download.streamTags)))
  {
    var m := MetadataOf(d);
    MetadataFields(d);
    var image := if io.download.tagging.image.Some? then io.download.tagging.image.value else [];
    FirstResultDownloaded(st, d.albumArtUrl, Some(m), io);
    EmbeddedText(io.download.streamTags, d.albumArtUrl, image, m);
    EmbeddedCover(io.download.streamTags, d.albumArtUrl, image, Some(m));
  }

  /** Tagging either succeeds as a whole or leaves the file exactly as downloaded. */
  lemma EmbedAllOrNothing(st: LibState, filePath: string, imageUrl: Option<string>,
                          metadata: Option<Metadata>, io: TagIo)
    ensures var (st', outcome) := EmbedStep(st, filePath, imageUrl, metadata, io);
      && (outcome == TagFailed <==> st' == st && !(filePath in st.files && io.opens && io.saves &&
                                                  (Truthy(imageUrl) ==> io.image.Some?)))
      && st'.files.Keys == st.files.Keys
      && (outcome == Tagged ==> st'.files[filePath].source == st.files[filePath].source)
  {
  }

  /**
   * Tracks are handled in order, one query per track, and the loop stops only
   * at a crash: every outcome but the last is not a crash, and fewer outcomes
   * than tracks means the last one crashed.
   */
  lemma {:induction false} RunInOrder(step: Step, st: LibState, songs: seq<Tracklist.Descriptor>, io: seq<TrackIo>)
    requires |io| == |songs|
    ensures var r := Run(step, st, songs, io);
      && |r.queries| == |r.outcomes| <= |songs|
      && (forall k :: 0 <= k < |r.queries| ==> r.queries[k] == Query(songs[k]))
      && (forall k :: 0 <= k < |r.outcomes| - 1 ==> !r.outcomes[k].Crashed?)
      && (|r.outcomes| < |songs| ==> |r.outcomes| > 0 && r.outcomes[|r.outcomes| - 1].Crashed?)
    decreases |songs|
  {
    if songs != [] {
      var (st1, outcome) := step(st, songs[0], io[0]);
      if !outcome.Crashed? {
        RunInOrder(step, st1, songs[1..], io[1..]);
      }
    }
  }

  /** A search that never raises and a stream that never fails give every track an outcome. */
  lemma {:induction false} RunCompletes(st: LibState, songs: seq<Tracklist.Descriptor>, io: seq<TrackIo>)
    requires |io| == |songs|
    requires forall k :: 0 <= k < |io| ==> io[k].results.Some? && io[k].download.streamOk
    ensures |Run(TrackStep, st, songs, io).outcomes| == |songs|
    decreases |songs|
  {
    if songs != [] {
      RunCompletes(TrackStep(st, songs[0], io[0]).0, songs[1..], io[1..]);
    }
  }

  /** No file is ever deleted, and every saved track's file exists at the end. */
  lemma {:induction false} RunKeepsFiles(st: LibState, songs: seq<Tracklist.Descriptor>, io: seq<TrackIo>)
    requires |io| == |songs|
    ensures var r := Run(TrackStep, st, songs, io);
      && st.files.Keys <= r.state.files.Keys
      && forall k :: 0 <= k < |r.outcomes| && r.outcomes[k].Saved? ==> r.outcomes[k].path in r.state.files
    decreases |songs|
  {
    if songs != [] {
      var (st1, outcome) := TrackStep(st, songs[0], io[0]);
      if !outcome.Crashed? {
        RunKeepsFiles(st1, songs[1..], io[1..]);
      }
    }
  }

  /** One more step of the loop, read off the suffix of tracks still to do. */
  lemma RunStep(step: Step, st: LibState, songs: seq<Tracklist.Descriptor>, io: seq<TrackIo>, i: nat)
    requires |io| == |songs| && i < |songs|
    ensures var (st1, outcome) := step(st, songs[i], io[i]);
      Run(step, st, songs[i..], io[i..]) ==
        if outcome.Crashed? then RunResult(st1, [Query(songs[i])], [outcome])
        else
          var rest := Run(step, st1, songs[i + 1..], io[i + 1..]);
          RunResult(rest.state, [Query(songs[i])] + rest.queries, [outcome] + rest.outcomes)
  {
    assert songs[i..][1..] == songs[i + 1..];
    assert io[i..][1..] == io[i + 1..];
  }

  /** The run over a single track is that track's step. */
  lemma RunSingle(step: Step, st: LibState, d: Tracklist.Descriptor, io: TrackIo)
    ensures var (st1, outcome) := step(st, d, io);
      Run(step, st, [d], [io]) == RunResult(st1, [Query(d)], [outcome])
  {
    var (st1, outcome) := step(st, d, io);
    assert [d][1..] == [] && [io][1..] == [];
    assert Run(step, st1, [], []) == RunResult(st1, [], []);
    assert Run(step, st, [d], [io]) == RunFrom(step, st, [d], [io]);
  }

  /** Handling track `d` under `tio` takes the library from `st` to `st1` with this query and outcome. */
  ghost predicate Handled(step: Step, st: LibState, d: Tracklist.Descriptor, tio: TrackIo,
                          st1: LibState, query: string, outcome: TrackOutcome)
  {
    Run(step, st, [d], [tio]) == RunResult(st1, [query], [outcome])
  }

  /** A handled track is one application of `step`. */
  lemma HandledStep(step: Step, st: LibState, d: Tracklist.Descriptor, tio: TrackIo,
                    st1: LibState, query: string, outcome: TrackOutcome)
    requires Handled(step, st, d, tio, st1, query, outcome)
    ensures step(st, d, tio) == (st1, outcome) && query == Query(d)
  {
    RunSingle(step, st, d, tio);
    var r := Run(step, st, [d], [tio]);
    assert r.queries[0] == query && r.outcomes[0] == outcome;
  }

  /**
   * The loop invariant of the entry point: the outcome of the whole run,
   * `whole`, is the run so far followed by the run of the tracks still to do.
   */
  ghost predicate RunSoFar(step: Step, whole: RunResult, songs: seq<Tracklist.Descriptor>, io: seq<TrackIo>,
                           index: nat, current: LibState, queries: seq<string>, outcomes: seq<TrackOutcome>)
    requires |io| == |songs| && index <= |songs|
  {
    var rest := Run(step, current, songs[index..], io[index..]);
    whole == RunResult(rest.state, queries + rest.queries, outcomes + rest.outcomes)
  }

  /** Handling track `index` keeps the invariant, or ends the run when it crashes. */
  lemma RunSoFarStep(step: Step, whole: RunResult, songs: seq<Tracklist.Descriptor>, io: seq<TrackIo>,
                     index: nat, before: LibState, after: LibState, outcome: TrackOutcome,
                     queries: seq<string>, outcomes: seq<TrackOutcome>)
    requires |io| == |songs| && index < |songs|
    requires RunSoFar(step, whole, songs, io, index, before, queries, outcomes)
    requires Handled(step, before, songs[index], io[index], after, Query(songs[index]), outcome)
    ensures outcome.Crashed? ==>
      whole == RunResult(after, queries + [Query(songs[index])], outcomes + [outcome])
    ensures !outcome.Crashed? ==>
      RunSoFar(step, whole, songs, io, index + 1, after, queries + [Query(songs[index])], outcomes + [outcome])
  {
    HandledStep(step, before, songs[index], io[index], after, Query(songs[index]), outcome);
    RunStep(step, before, songs, io, index);
    if !outcome.Crashed? {
      var query, rest := Query(songs[index]), Run(step, after, songs[index + 1..], io[index + 1..]);
      assert queries + ([query] + rest.queries) == queries + [query] + rest.queries;
      assert outcomes + ([outcome] + rest.outcomes) == outcomes + [outcome] + rest.outcomes;
    }
  }
}
