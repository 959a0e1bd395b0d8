# DJ track-handling core in Dafny

A model of the track-handling core of a small DJ application written in C++:

- **Tracks** (`tracks.dfy`, module `Tracks`): an `AudioTrack` class with a
  title, artists, a duration, a bpm (the only field that changes after
  construction) and a format part, `Mp3Format(bitrate, qualityFlag)` or
  `WavFormat(sampleRate, bitDepth)`. `Clone` allocates a new track with equal
  fields. The WAV variant's quality score and the byte-size estimate its
  `load` reports are pure functions.
- **Playlist** (`playlist.dfy`, module `Playlists`): a class holding the
  owned tracks front to back as a sequence `nodes`, a `name` and a
  `trackCount`, with the invariant `trackCount == |nodes|`. Insertion is at
  the front; removal and lookup take the first match by title from the front;
  copy construction and assignment clone every track, in order.
- **Library service** (`library.dfy`, module `Library`): builds the catalog
  from descriptor records (types `"MP3"` and `"WAV"`, anything else skipped)
  and materialises the playlist from 1-based catalog indices. Because every
  clone is added at the front, the playlist lists the clones in reverse order
  of the valid indices; this is proved.
- **Mixer** (`mixing.dfy`, module `Mixing`): two deck slots in an array, the
  active index, the auto-sync switch and the bpm tolerance; loading a track,
  the bpm compatibility test and bpm synchronisation.
- `cpp_arith.dfy` (module `CppArith`): `abs` and C++'s truncating integer
  division, which differs from Dafny's Euclidean `/` on negative operands.

Decisions worth knowing when reading the model:

- Ownership is modelled as allocation: every hand-off clone is `fresh`, so
  the contracts show that catalog, playlist and deck never share a track, and
  `Distinct` shows that no two positions of one playlist or of the newly
  built catalog share a track either.
  Releasing a track is dropping the reference to it.
- After every successful load the slot that is not active is empty: a load
  clears the target slot, installs the clone and then empties the previously
  active slot (src/MixingEngineService.cpp:56-59 and 76-82).
- `loadPlaylistFromIndices` is split in three: `LoadPlaylistFromIndices`
  resets the playlist and calls `AddClones`, the loop over the indices, whose
  body is `AddCloneOf` (clone one catalog entry and add it at the front).
- `buildLibrary` builds the new tracks in a local sequence and appends it to
  the catalog once the loop ends. Nothing reads the catalog while the loop
  runs, so the final state is the one the per-track `push_back` gives.
- `loadTrackToDeck` is split at its call to `clone`: `LoadTrackToDeck` clones
  and calls `LoadClone`, which models the rest of the function over the clone
  it is given. That clone may be null, so the `-1` path is modelled.

## Model

| member | source | states |
|---|---|---|
| `CppArith.TruncDiv` | src/MixingEngineService.cpp:116 | C++ `/` by a positive divisor: the remainder lies in [0, b) for a non-negative dividend and in (-b, 0] for a negative one (truncation toward zero) |
| `Tracks.AudioTrack.Wav` | src/WAVTrack.cpp:4-6 | a WAV track stores sample rate and bit depth and passes title, artists, duration and bpm through unchanged |
| `Tracks.AudioTrack.Clone` | src/WAVTrack.cpp:51-54 | the clone is a newly allocated track whose every field equals the source's; the source is not modified |
| `Tracks.WavQualityScore` | src/WAVTrack.cpp:38-49 | the score lies in [70, 100]; it equals 70 plus a sample-rate tier (0/10/15) plus a bit-depth tier (0/10/15), so the cap at 100 never cuts anything; it is 100 exactly at 96 kHz and 24 bits or more, and 70 exactly below 44.1 kHz and below 16 bits |
| `Tracks.WavQualityScoreMonotone` | src/WAVTrack.cpp:41-44 | raising the sample rate or the bit depth never lowers the score |
| `Tracks.WavEstimatedBytes` | src/WAVTrack.cpp:19 | a bit depth strictly between -8 and 8 gives zero whole bytes per sample (the division truncates toward zero) and so a zero estimate |
| `Tracks.WavEstimatedBytesNonNegative` | src/WAVTrack.cpp:19 | the estimate is never negative for non-negative duration, sample rate and bit depth |
| `Tracks.WavEstimatedBytesWholeBytes` | src/WAVTrack.cpp:19 | when the bit depth is a multiple of 8, eight times the estimate is exactly 2 × duration × sample rate × bit depth |
| `Playlists.FirstIndexOf` | src/Playlist.cpp:97-100 | the scan stops at the smallest index whose title matches, or at the end when none does |
| `Playlists.TotalDurationPrepend` | src/Playlist.cpp:84-86 | putting a track at the front raises the total duration by its duration |
| `Playlists.TotalDurationRemoveAt` | src/Playlist.cpp:102-112 | unlinking the node at position k lowers the total duration by exactly that track's duration |
| `Playlists.TotalDurationNonNegative` | src/Playlist.cpp:167-177 | with non-negative durations the total is non-negative |
| `Playlists.AddThenRemoveRestores` | src/Playlist.cpp:74-119 | removing the title of a track just added removes that very track and restores the previous sequence |
| `Playlists.CloneEach` | src/Playlist.cpp:63-72 | the node-by-node copy yields fresh, pairwise distinct clones of the source tracks, one per node, in the same order |
| `Playlists.Playlist.constructor` | src/Playlist.cpp:5-8 | a new playlist has the given name, no tracks and a count of 0 |
| `Playlists.Playlist.Copy` | src/Playlist.cpp:56-73 | the copy has the source's name and count and fresh, pairwise distinct, field-identical clones of its tracks in the same order |
| `Playlists.Playlist.Assign` | src/Playlist.cpp:24-54 | after assignment (from a different playlist) the old tracks are gone and the name, count and cloned tracks (fresh and pairwise distinct) match the source, which is unchanged |
| `Playlists.Playlist.AddTrack` | src/Playlist.cpp:74-90 | a null track changes nothing; any other becomes position 0 ahead of the old sequence and the count grows by exactly 1 |
| `Playlists.Playlist.RemoveTrack` | src/Playlist.cpp:92-119 | the first track from the front with the title is removed, the others keep their order and the count drops by 1; with no match sequence and count are unchanged |
| `Playlists.Playlist.FindTrack` | src/Playlist.cpp:154-165 | returns the track at the smallest matching index, or null when no title matches |
| `Playlists.Playlist.GetTotalDuration` | src/Playlist.cpp:167-177 | the result is the sum of the durations of the current sequence |
| `Playlists.Playlist.GetTracks` | src/Playlist.cpp:179-188 | returns exactly the held tracks, front to back |
| `Playlists.AddedTracksComeOutReversed` | src/Playlist.cpp:81-86 | adding A, then B, then C to a new playlist lists them as [C, B, A] with a count of 3 |
| `Library.KnownMembers` | src/DJLibraryService.cpp:17-27 | the kept descriptors are exactly those of type MP3 or WAV that occur in the input |
| `Library.KnownStep` | src/DJLibraryService.cpp:17-27 | one more descriptor extends the kept ones by itself exactly when its type is MP3 or WAV, and leaves them as they were otherwise |
| `Library.KnownAppend` | src/DJLibraryService.cpp:17-27 | the filter keeps input order: it distributes over concatenation |
| `Library.ValidIndicesMembers` | src/DJLibraryService.cpp:75-88 | an index is used exactly when it occurs in the input and lies in [1, catalog size] |
| `Library.FrontInsertedIsReversedSelection` | src/DJLibraryService.cpp:73-89 | adding the clone for each valid index at the front yields the valid indices in reverse order |
| `Library.ReverseAt` | src/DJLibraryService.cpp:73-89 | position k of the resulting order holds the valid index at position (count − 1 − k) |
| `Library.ClonesAtIndex` | src/DJLibraryService.cpp:76 | each playlist track is a field-identical copy of the catalog entry its index names |
| `Library.ThreeTrackExample` | src/DJLibraryService.cpp:73-89 | with a three-track catalog, indices [2, 5, 1] skip 5 and produce catalog entries 1 then 2, front to back |
| `Library.DJLibraryService.constructor` | src/DJLibraryService.cpp:10-11 | the service starts with a deep copy of the given playlist (same name, fresh, pairwise distinct, field-identical clones of its tracks in order) and an empty catalog |
| `Library.BuildTrack` | src/DJLibraryService.cpp:18-25 | an MP3 descriptor yields a new track with the flag `extra_param2 > 0`, a WAV descriptor a new track with sample rate and bit depth, common fields copied |
| `Library.DJLibraryService.BuildLibrary` | src/DJLibraryService.cpp:16-29 | one new track, distinct from every other appended one, is appended per MP3 or WAV descriptor, in input order, others skipped; an MP3 gets the flag `extra_param2 > 0`, a WAV gets sample rate and bit depth from the two extra parameters |
| `Library.AddCloneOf` | src/DJLibraryService.cpp:76-83 | a fresh clone of the entry at the 1-based index goes to the front, the count grows by one, the earlier nodes follow unchanged and the playlist stays free of shared tracks |
| `Library.AddClones` | src/DJLibraryService.cpp:73-89 | starting from an empty playlist, the nodes are fresh, pairwise distinct clones of the entries named by the in-range indices, each valid index put in front of those before it; the name is kept |
| `Library.DJLibraryService.LoadPlaylistFromIndices` | src/DJLibraryService.cpp:69-91 | the playlist is renamed and emptied first, then holds fresh, pairwise distinct clones of the catalog entries at the valid indices in reverse order, with a count equal to the number of valid indices; the catalog is not modified |
| `Library.DJLibraryService.FindTrack` | src/DJLibraryService.cpp:65-67 | returns the playlist's first track with the title, or null |
| `Library.DJLibraryService.GetTrackTitles` | src/DJLibraryService.cpp:96-102 | returns the titles of the playlist's tracks, front to back |
| `Mixing.BpmCompatible` | src/MixingEngineService.cpp:109 | `abs(a - c) <= tolerance` holds exactly when c lies in the window [a − tolerance, a + tolerance] |
| `Mixing.BpmCompatibleSymmetric` | src/MixingEngineService.cpp:109 | compatibility does not depend on which track is active |
| `Mixing.SyncedBpm` | src/MixingEngineService.cpp:116 | twice the new bpm is the sum of the two bpms rounded toward zero, and the new bpm lies between the two |
| `Mixing.SyncedBpmHalvesGap` | src/MixingEngineService.cpp:112-120 | after a sync the distance to the active bpm is at most half the old distance, rounded up |
| `Mixing.DocumentedCases` | src/MixingEngineService.cpp:105-120 | 140 synced with 128 gives 134; at tolerance 3, 122 mixes with 120 and 125 does not |
| `Mixing.MixingEngineService.constructor` | src/MixingEngineService.cpp:9-16 | both decks empty, deck 1 active, auto-sync off, tolerance 0 |
| `Mixing.MixingEngineService.CanMixTracks` | src/MixingEngineService.cpp:105-110 | false when the active deck or the candidate is empty, otherwise true exactly when the candidate's bpm is within the tolerance of the active track's |
| `Mixing.MixingEngineService.SyncBpm` | src/MixingEngineService.cpp:112-120 | sets the candidate's bpm to the truncated average of its old bpm and the active track's; nothing changes when the active deck is empty |
| `Mixing.MixingEngineService.LoadClone` | src/MixingEngineService.cpp:38-89 | a null clone returns -1 and changes nothing; otherwise the target is deck 1 on the first load and the inactive deck after that, the clone is installed there, the other deck is emptied, the target becomes active and is returned, and the clone's bpm is synced exactly when the active deck held a track, auto-sync is on and the bpms are not compatible |
| `Mixing.MixingEngineService.LoadTrackToDeck` | src/MixingEngineService.cpp:34-90 | the result is the new active deck (1 on the first load, else the previously inactive one), holding a fresh track with the source's fields and bpm synced under the same rule; the other deck is empty and the source track is unchanged |
| `Mixing.FailedCloneLeavesDecks` | src/MixingEngineService.cpp:37-41 | a failed clone returns -1 both on a new mixer and after a load, and deck 1 stays active holding the loaded track |

## Left out

- Console output of every kind, including `Playlist::display`, `displayLibrary`, `displayDeckStatus` and the messages of every modelled operation: output only.
- `WAVTrack::analyze_beatgrid` and the printing part of `WAVTrack::load`: they only print; the size estimate `load` prints is `WavEstimatedBytes`, and the calls to `load` and `analyze_beatgrid` made by the library and the mixer change no state, so the model omits them.
- The linked-list nodes of the playlist: the list is a sequence; `head`, `next` and the relinking of `current`/`prev` are represented by sequence slicing and concatenation, so node identity is not modelled.
- Destructors and `delete` (`Playlist::~Playlist`, the mixer's and the library service's destructors): with garbage collection, freeing a track is dropping its last reference.
- `Playlists.Playlist.Assign`: requires that the source is a different playlist, because `operator=` has no self-assignment check and would read freed nodes.
- `Playlist::getTracks`' null check: every node holds a non-null track in the model (`add_track` rejects null), so the check is vacuous.
- The null-clone skip in `loadPlaylistFromIndices` (src/DJLibraryService.cpp:77-80): `Clone` always yields a track in the model (allocation failure is not modelled), so that branch is unreachable; the mixer's null-clone path is modelled through `LoadClone`.
- MP3Track, AudioTrack, PointerWrapper, PlaylistNode and SessionFileParser are not part of this model; a track is one class with a format part, and a playlist node's copy is assumed to clone its track.
- `DJControllerService` and the LRU cache behind it: the cache's source is not part of this model and the controller's loading path has no well-defined behaviour (it never returns on the miss path).
- How `auto_sync` and `bpm_tolerance` are set: no setter is part of this model; the fields are public and every operation is verified for any values.
- Integer overflow of `int` and `long long`: durations, sums, bpm averages and size estimates use unbounded integers; `abs(INT_MIN)` is not modelled.
