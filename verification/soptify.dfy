/**
 * The imperative side of soptify.py: the `./music/` directory as an object
 * whose methods create it, write downloaded files and rewrite their atoms,
 * and the entry point's loop over the playlist. Each method is proved to
 * make exactly the state change its specification function in `Pipeline`
 * describes.
 */
module Soptify {
  import opened Wrappers
  import opened Tagging
  import opened Pipeline
  import Tracklist

  class MusicLibrary {
    /** Whether `./music/` exists. */
    var dirExists: bool
    /** The files in it, by path. */
    var files: map<string, AudioFile>

    function State(): LibState
      reads this
    {
      LibState(dirExists, files)
    }

    constructor (dirExists: bool, files: map<string, AudioFile>)
      ensures State() == LibState(dirExists, files)
    {
      this.dirExists := dirExists;
      this.files := files;
    }

    /**
     * `embed_album_art`: opens the file, sets the cover and the text atoms
     * one by one on the in-memory copy, and saves. Any failure is swallowed
     * and leaves the stored file untouched.
     */
    method EmbedAlbumArt(filePath: string, imageUrl: Option<string>, metadata: Option<Metadata>, io: TagIo)
      returns (outcome: TagOutcome)
      modifies this
      ensures (State(), outcome) == EmbedStep(old(State()), filePath, imageUrl, metadata, io)
    {
      outcome := TagFailed;
      if filePath !in files || !io.opens {
        return;
      }
      var audio := files[filePath].tags;
      if Truthy(imageUrl) {
        if io.image.None? {
          return;
        }
        audio := audio[CoverKey := Cover(io.image.value)];
      }
      ghost var withCover := audio;
      if HasMetadata(metadata) {
        var md := metadata.value;
        audio := audio[TitleKey := Text(Get(md, "title", ""))];
        audio := audio[ArtistKey := Text(Get(md, "artist", ""))];
        audio := audio[AlbumArtistKey := Text(Get(md, "album_artist", Get(md, "artist", "")))];
        audio := audio[AlbumKey := Text(Get(md, "album", ""))];
        assert audio == withCover + TextTags(md);
      }
      if !io.saves {
        return;
      }
      files := files[filePath := files[filePath].(tags := audio)];
      outcome := Tagged;
    }

    /** `download`: creates the directory if needed, saves the stream, then tags it. */
    method Download(url: string, title: Option<string>, imageUrl: Option<string>,
                    metadata: Option<Metadata>, io: DownloadIo)
      returns (outcome: TrackOutcome)
      modifies this
      ensures (State(), outcome) == DownloadStep(old(State()), url, title, imageUrl, metadata, io)
    {
      if !dirExists {
        dirExists := true;
      }
      if !io.streamOk {
        return Crashed;
      }
      var path := OutputPath(title, io.videoTitle);
      files := files[path := AudioFile(url, io.streamTags)];
      var tagging := EmbedAlbumArt(path, imageUrl, metadata, io.tagging);
      outcome := Saved(path, tagging);
    }

    /** `search_and_download`: a raising search crashes, no hits skip the track, else the first hit is downloaded. */
    method SearchAndDownload(query: string, imageUrl: Option<string>, metadata: Option<Metadata>, io: TrackIo)
      returns (outcome: TrackOutcome)
      modifies this
      ensures (State(), outcome) == SearchStep(old(State()), imageUrl, metadata, io)
    {
      if io.results.None? {
        return Crashed;
      }
      var hits := io.results.value;
      if |hits| == 0 {
        return NoResults;
      }
      var video := hits[0];
      outcome := Download(video.watchUrl, Some(video.title), imageUrl, metadata, io.download);
    }

    /**
     * One pass of the entry point's loop body: build the query, then search
     * and download. Its effect is that of the loop run over this one track,
     * that is, of `TrackStep` (see `RunSingle`).
     */
    method HandleTrack(track: Tracklist.Descriptor, io: TrackIo) returns (query: string, outcome: TrackOutcome)
      modifies this
      ensures query == Query(track)
      ensures Handled(TrackStep, old(State()), track, io, State(), query, outcome)
    {
      query := Query(track);
      outcome := SearchAndDownload(query, track.albumArtUrl, Some(MetadataOf(track)), io);
      RunSingle(TrackStep, old(State()), track, io);
    }
  }

  /**
   * The entry point's loop: one query and one search per track, in order,
   * then a pause; a crash ends the run. `pauses` counts the sleeps taken.
   */
  method ProcessTracks(lib: MusicLibrary, songs: seq<Tracklist.Descriptor>, io: seq<TrackIo>)
    returns (queries: seq<string>, outcomes: seq<TrackOutcome>, pauses: nat)
    requires |io| == |songs|
    modifies lib
    ensures RunResult(lib.State(), queries, outcomes) == Run(TrackStep, old(lib.State()), songs, io)
    ensures pauses == if |outcomes| > 0 && outcomes[|outcomes| - 1].Crashed? then |outcomes| - 1 else |outcomes|
  {
    queries, outcomes, pauses := [], [], 0;
    ghost var whole := Run(TrackStep, lib.State(), songs, io);
    assert songs[0..] == songs && io[0..] == io;
    var index := 0;
    while index < |songs|
      invariant index <= |songs|
      invariant |queries| == |outcomes| == pauses == index
      invariant forall k :: 0 <= k < index ==> !outcomes[k].Crashed?
      invariant RunSoFar(TrackStep, whole, songs, io, index, lib.State(), queries, outcomes)
    {
      ghost var before := lib.State();
      var query, outcome := lib.HandleTrack(songs[index], io[index]);
      RunSoFarStep(TrackStep, whole, songs, io, index, before, lib.State(), outcome, queries, outcomes);
      queries := queries + [query];
      outcomes := outcomes + [outcome];
      if outcome.Crashed? {
        break;
      }
      pauses := pauses + 1;
      index := index + 1;
    }
  }

  /** The whole script: resolve the playlist, then process its tracks. */
  method ConvertPlaylist(url: string, pages: seq<Tracklist.Page>, lib: MusicLibrary, io: seq<TrackIo>)
    returns (queries: seq<string>, outcomes: seq<TrackOutcome>)
    requires |io| == |Tracklist.PlaylistTracks(url, pages)|
    modifies lib
    ensures RunResult(lib.State(), queries, outcomes)
         == Run(TrackStep, old(lib.State()), Tracklist.PlaylistTracks(url, pages), io)
  {
    var songs, visited, requests := Tracklist.GetPlaylistTracks(url, pages);
    var pauses;
    queries, outcomes, pauses := ProcessTracks(lib, songs, io);
  }
}
