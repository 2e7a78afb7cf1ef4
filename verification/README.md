# Musician: a verified model of the playlist-to-file pipeline

Musician turns a Spotify playlist into local `.m4a` files. It reads the
playlist's tracks from the catalog, searches YouTube for
`"<title> by <artist> Official Audio"`, downloads the first hit's audio
stream into `./music/<sanitised title>.m4a` and writes the cover and the
title, artist, album-artist and album tags into the file. This Dafny
project models the logic of that pipeline in the source's own form. The
catalog, YouTube, the HTTP client and the MP4 tagging library become inputs
that say what they would answer.

- `filenames.dfy` (module `Filenames`) models `sanitize_filename`. It deletes
  the nine Windows-reserved characters `\ / * ? : " < > |`.
- `playlist_url.dfy` (module `PlaylistUrl`) models `extract_playlist_id` as a
  hand-written scanner for the pattern `playlist/([a-zA-Z0-9]+)`. The scanner
  is proved against a declarative statement of what the regular-expression
  search returns: the leftmost match and the maximal identifier run after it.
- `tracklist.dfy` (module `Tracklist`) covers `get_playlist_tracks`.
  - `Describe` builds the descriptor for one track. `PageDescriptors` and
    `VisitedCount` state what the page walk returns.
  - `GetPlaylistTracks` is the imperative method: an outer `while` loop over
    the pages and an inner `for` loop that appends descriptors.
  - The pages the catalog would serve, in order, are the input `seq<Page>`.
- `tagging.dfy` (module `Tagging`) models the atoms that `embed_album_art`
  writes, as a `map<string, TagValue>`.
- `pipeline.dfy` (module `Pipeline`) holds the pure parts of `soptify.py`:
  the query, the title choice and the output path. It also holds the state
  transitions of `embed_album_art`, `download` and `search_and_download`,
  and the loop of the script's entry point. All of these are functions on a
  `LibState`, which is the `./music/` directory.
- `soptify.dfy` (module `Soptify`) is the imperative side.
  - The class `MusicLibrary` holds the directory flag and the files. Its
    methods update them step by step: they create the directory, write the
    download and set the atoms key by key on the in-memory copy before
    saving.
  - `ProcessTracks` is the per-track `for` loop. `ConvertPlaylist` is the
    whole script.
  - Each method is proved to make exactly the change its `Pipeline` function
    describes.

Two consequences of the code that are easy to miss:

- The script sleeps after every track, including the last one. A run of N
  tracks without a crash therefore sleeps N times
  (`ProcessTracks`: `pauses`).
- A failing cover fetch raises before the text tags are set and before
  `audio.save()`. So the file keeps none of the new tags, text tags included
  (`EmbedAllOrNothing`).

## Model

| member | source | states |
|---|---|---|
| `Filenames.Sanitize` | soptify.py:10-14 | the result contains no reserved character and is no longer than the input |
| `Filenames.SanitizeLength` | soptify.py:14 | exactly the reserved characters are removed: length = input length − number of reserved characters |
| `Filenames.SanitizeMembers` | soptify.py:14 | a character occurs in the result iff it occurs in the input and is not reserved (non-ASCII characters included) |
| `Filenames.SanitizeAppend` | soptify.py:14 | sanitising a concatenation is the concatenation of the sanitised parts, so the relative order of kept characters is preserved |
| `Filenames.SanitizeChar` | soptify.py:14 | a single reserved character is deleted, any other single character is kept |
| `Filenames.SanitizeClean` | soptify.py:14 | a string with no reserved character is returned unchanged |
| `Filenames.SanitizeIdempotent` | soptify.py:14 | sanitising twice equals sanitising once |
| `Filenames.SanitizeReserved` | soptify.py:14 | a string made only of reserved characters is deleted entirely |
| `Filenames.ExampleHead` | soptify.py:14 | `AC/DC: "` becomes `ACDC ` |
| `Filenames.ExampleTail` | soptify.py:14 | `Thunder"?` becomes `Thunder` |
| `Filenames.SanitizeExample` | soptify.py:14 | `AC/DC: "Thunder"?` becomes `ACDC Thunder` |
| `PlaylistUrl.RunEnd` | tracklist.py:39 | the greedy `[a-zA-Z0-9]+` run from a position: every character in it is alphanumeric and the next one is not (or the string ends) |
| `PlaylistUrl.FindMatch` | tracklist.py:39 | the scan returns the first position at or after `from` where `playlist/` is followed by an alphanumeric, or None when there is no such position |
| `PlaylistUrl.ExtractPlaylistId` | tracklist.py:30-40 | None exactly when no `playlist/` is followed by an ASCII letter or digit; otherwise the result is a non-empty, all-alphanumeric, maximal run that starts right after the leftmost such `playlist/` |
| `PlaylistUrl.MaximalRunEnd` | tracklist.py:39 | a maximal alphanumeric run that starts at a position ends where the scanner's run ends |
| `PlaylistUrl.IdMatchUnique` | tracklist.py:39-40 | the match position and the identifier that satisfy the search's promise are unique |
| `PlaylistUrl.NoMatchWithoutP` | tracklist.py:39 | no match of `playlist/` starts at a position that does not hold `p` |
| `PlaylistUrl.NoMatchWithoutSlash` | tracklist.py:39 | a string without `/` contains no match anywhere |
| `PlaylistUrl.ExtractIsTheMatch` | tracklist.py:39-40 | any identifier that satisfies the search's promise is what the extraction returns |
| `PlaylistUrl.ExtractSkipsEmptyMatch` | tracklist.py:39-40 | a `playlist/` followed by `-` is passed over: `x/playlist/-/playlist/Ab9?z` yields `Ab9` |
| `PlaylistUrl.ExtractRejectsUri` | tracklist.py:39-40 | the URI form `spotify:playlist:AB12` yields None |
| `Tracklist.ArtistNames` | tracklist.py:66-68 | one name per artist, in the artists' order |
| `Tracklist.JoinAt` | tracklist.py:66-68 | in `", ".join(names)` each name stands at its offset, in order, with the separator right after every name but the last, and nothing after the last |
| `Tracklist.JoinFirst` | tracklist.py:66-68 | the first name opens the joined string and is followed by the separator when more names follow |
| `Tracklist.JoinShift` | tracklist.py:66-68 | a name found at its offset in the join of the later names is found, shifted by the first name and one separator, in the whole join |
| `Tracklist.Describe` | tracklist.py:63-82 | title and album come from the track, artist is the names joined by `", "`, album_artist equals artist, and the cover URL is the first image's URL, or None when there are no images |
| `Tracklist.VisitedCount` | tracklist.py:61-87 | the walk reads at least one page when there is one, all pages before the last one read have a next link, and it stops early only at a page without one |
| `Tracklist.VisitedCountOf` | tracklist.py:61-87 | any walk that reads n pages, all but the last with a next link and stopping at one without (or at the end), reads exactly `VisitedCount(pages)` pages |
| `Tracklist.ItemDescriptorsAppend` | tracklist.py:62-82 | the descriptors of concatenated item lists are the concatenated descriptors: item order is kept |
| `Tracklist.ItemDescriptorsSingle` | tracklist.py:63-64 | an item with a null track contributes nothing, any other item contributes its own descriptor |
| `Tracklist.PageDescriptorsAppend` | tracklist.py:61-87 | the descriptors of concatenated page lists are the concatenated descriptors: page order is kept |
| `Tracklist.ItemDescriptorsCount` | tracklist.py:62-82 | one descriptor per item whose track is not null |
| `Tracklist.PageDescriptorsCount` | tracklist.py:61-87 | the number of descriptors is the total number of items minus the null-track items |
| `Tracklist.GetPlaylistTracks` | tracklist.py:43-89 | for an invalid URL: no tracks and no catalog request; otherwise exactly the pages up to the first without a next link are read, in order and once each, the result is their descriptors with null tracks skipped, its length is items minus null tracks, and one request is made per page read, plus one when the pages run out |
| `Tagging.TextTags` | soptify.py:30-34 | metadata writes exactly the four atoms `©nam`, `©ART`, `aART`, `©alb` |
| `Tagging.EmbeddedText` | soptify.py:30-34 | with metadata, `©nam` = title or "", `©ART` = artist or "", `©alb` = album or "", and `aART` = album_artist, else artist, else "" |
| `Tagging.EmbeddedCover` | soptify.py:24-27 | `covr` is set to the fetched image exactly when the image URL is truthy, and is otherwise left as it was |
| `Tagging.EmbeddedKeepsOthers` | soptify.py:16-37 | without metadata no text atom changes, and no atom other than the five written ones ever changes |
| `Pipeline.Query` | soptify.py:78 | the query is the title, then " by ", then the artist, then " Official Audio" |
| `Pipeline.OutputPathShape` | soptify.py:47-54 | `title or yt.title`: the path is `./music/` + the sanitised given title + `.m4a` when that title is neither None nor empty, and `./music/` + the sanitised video title + `.m4a` otherwise; the file name holds no `/` or `\`, so the file lies directly in the music directory |
| `Pipeline.MetadataOf` | soptify.py:80 | the descriptor passed as metadata is a non-empty (truthy) dictionary, so `if metadata:` in `embed_album_art` always takes the tagging branch |
| `Pipeline.MetadataFields` | tracklist.py:76-82 | the metadata has exactly the keys title, artist, album and album_artist, each holding the descriptor's field of that name |
| `Pipeline.NoResultsSkips` | soptify.py:64-67 | a search that returns an empty result list skips the track and changes nothing |
| `Pipeline.FirstResultDownloaded` | soptify.py:42-71 | otherwise exactly `results[0]` is downloaded, under a name from its title (not the playlist title); the directory exists afterwards; exactly that one path is added or overwritten; the file keeps its downloaded atoms if tagging fails and holds the embedded atoms if it succeeds |
| `Pipeline.DownloadCrash` | soptify.py:48-55 | a failing download creates the directory, writes no file and crashes the run |
| `Pipeline.CrashWritesNothing` | soptify.py:48-71 | a track crashes the run exactly when the search raises or the first hit's download fails; a crash writes no file, and the directory exists afterwards exactly when it did before or the search returned |
| `Pipeline.TrackTags` | soptify.py:16-80 | when the first hit downloads, the track's file is saved under the returned path; if tagging succeeds it holds `©nam` = title, `©ART` = artist, `aART` = album artist and `©alb` = album of the playlist track, and the fetched cover when the track has an art URL; if tagging fails it keeps the downloaded atoms |
| `Pipeline.EmbedAllOrNothing` | soptify.py:16-40 | tagging fails iff the file is missing or unreadable, the image fetch raises, or saving fails; a failure leaves the whole library unchanged; no file is created or removed |
| `Pipeline.RunInOrder` | soptify.py:77-81 | tracks are processed in order with one query each (query k is built from track k); the loop stops only at a crash, which is then the last outcome |
| `Pipeline.RunCompletes` | soptify.py:77-81 | when no search raises and no download fails, every track gets an outcome |
| `Pipeline.RunKeepsFiles` | soptify.py:77-81 | the run never deletes a file, and every saved track's file exists at the end |
| `Pipeline.RunStep` | soptify.py:77-81 | the run over the tracks from i on is track i's step, then, unless it crashed, the run over the tracks after it |
| `Pipeline.RunSingle` | soptify.py:77-81 | the run over one track is that track's step and its query |
| `Pipeline.HandledStep` | soptify.py:77-81 | a track handled as the one-track run is one application of the step, with that track's query |
| `Pipeline.RunSoFarStep` | soptify.py:77-81 | handling the next track either keeps "whole run = run so far + run of the rest" or, on a crash, ends with the run so far being the whole run |
| `Soptify.MusicLibrary.EmbedAlbumArt` | soptify.py:16-40 | opening, setting the cover and text atoms one by one, then saving gives exactly the state change of `EmbedStep` |
| `Soptify.MusicLibrary.Download` | soptify.py:42-58 | creating the directory, saving the stream and tagging it gives exactly the state change of `DownloadStep` |
| `Soptify.MusicLibrary.SearchAndDownload` | soptify.py:60-71 | gives exactly the state change of `SearchStep`: a raising search crashes without touching the directory, an empty result changes nothing, otherwise the first hit is downloaded |
| `Soptify.MusicLibrary.HandleTrack` | soptify.py:78-80 | one pass of the loop body builds the track's query and has the effect of the loop run over that one track |
| `Soptify.ProcessTracks` | soptify.py:77-81 | the loop's final library, queries and outcomes are those of `Run(TrackStep, …)`; it sleeps once per track that did not crash |
| `Soptify.ConvertPlaylist` | soptify.py:73-81 | the script runs the loop over exactly the tracks `get_playlist_tracks` returns for the URL and pages |

## Left out

- Loading credentials and creating the Spotify client (tracklist.py:15-27):
  environment and foreign-library set-up.
- The network calls `playlist_items`, `next`, `Search`, `YouTube`,
  `get_audio_only`, `download` and `requests.get`.
  - The catalog is the input `pages`.
  - The search hits, the video's title, whether the stream downloads, and the
    atoms it comes with are the input `TrackIo`.
  - The search results are not tied to the text of the query.
  - A search that raises is the input `results == None` and crashes the run.
- Whether `MP4(...)` opens the file, the image bytes or a raised fetch, and
  whether `audio.save()` succeeds are the input `TagIo`. Exceptions become
  these outcomes. The exception messages are not modelled.
- The MP4 container, atom encoding and `MP4Cover` JPEG framing: atoms are a
  map from name to a text or an image value.
- The descriptor is passed as metadata with its four text fields only. Its
  `album_art_url` entry is never read by the tagging step. A None value
  cannot stand in a string map.
- A failed download is modelled as writing nothing. A partially written file
  left behind by an interrupted stream is not modelled.
- `input()`, every `print`, the progress callback and the numbered progress
  line are console I/O. `time.sleep(1.5)` is only counted, as `pauses`.
- `os.path.join` is modelled with POSIX rules only.
- General regular-expression semantics: only the two fixed patterns are
  modelled, by hand.
- Truthiness of a catalog page is modelled as "a page was returned". Every
  returned page is truthy.
- Tracklist.GetPlaylistTracks: an error raised by `playlist_items` or
  `next` (tracklist.py:58, 85) propagates and ends the script before any
  track is processed. The model has no such path: every catalog request
  answers with a page or with nothing.
