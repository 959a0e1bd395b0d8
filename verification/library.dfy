/**
 * The library service: builds the catalog of tracks from descriptor records
 * and materialises the current playlist by cloning catalog entries chosen by
 * 1-based index.
 */
module Library {
  import opened Tracks
  import opened Playlists

  /** A track descriptor as the session-file parser hands it over. */
  datatype TrackInfo = TrackInfo(
    kind: string,
    title: string,
    artists: seq<string>,
    duration: int,
    bpm: int,
    extraParam1: int,
    extraParam2: int)

  /** The descriptor types the catalog knows how to build. */
  predicate KnownKind(d: TrackInfo)
  {
    d.kind == "MP3" || d.kind == "WAV"
  }

  /** The descriptors of a known type, in input order. */
  function Known(ds: seq<TrackInfo>): (ks: seq<TrackInfo>)
    ensures |ks| <= |ds|
  {
    if ds == [] then []
    else
      var init := Known(ds[..|ds| - 1]);
      if KnownKind(ds[|ds| - 1]) then init + [ds[|ds| - 1]] else init
  }

  /** A descriptor is kept exactly when it occurs in the input and its type is known. */
  lemma {:induction false} KnownMembers(ds: seq<TrackInfo>)
    ensures forall d :: d in Known(ds) <==> d in ds && KnownKind(d)
  {
    if ds != [] {
      var init := ds[..|ds| - 1];
      assert ds == init + [ds[|ds| - 1]];
      KnownMembers(init);
    }
  }

  /** Filtering keeps order: the known part of a concatenation is the concatenation of the known parts. */
  lemma {:induction false} KnownAppend(a: seq<TrackInfo>, b: seq<TrackInfo>)
    ensures Known(a + b) == Known(a) + Known(b)
  {
    if b == [] {
      assert a + b == a;
    } else {
      var init := b[..|b| - 1];
      assert (a + b)[..|a + b| - 1] == a + init;
      assert (a + b)[|a + b| - 1] == b[|b| - 1];
      KnownAppend(a, init);
    }
  }

  /**
   * Track `t` is the one built from descriptor `d`: the common fields are
   * copied, an MP3 takes the bitrate and the flag `extraParam2 > 0`, a WAV
   * takes the sample rate and the bit depth.
   */
  ghost predicate BuiltFrom(t: AudioTrack, d: TrackInfo)
    reads t
  {
    && t.title == d.title
    && t.artists == d.artists
    && t.duration == d.duration
    && t.bpm == d.bpm
    && (d.kind == "MP3" ==> t.format == Mp3Format(d.extraParam1, d.extraParam2 > 0))
    && (d.kind == "WAV" ==> t.format == WavFormat(d.extraParam1, d.extraParam2))
  }

  /** One more descriptor extends the filtered prefix by itself exactly when its type is known. */
  lemma {:induction false} KnownStep(ds: seq<TrackInfo>, j: nat)
    requires j < |ds|
    ensures Known(ds[..j + 1]) == if KnownKind(ds[j]) then Known(ds[..j]) + [ds[j]] else Known(ds[..j])
  {
    assert ds[..j + 1][..j] == ds[..j];
  }

  /** A new MP3 or WAV track built from a descriptor of that type. */
  method BuildTrack(d: TrackInfo) returns (t: AudioTrack)
    requires KnownKind(d)
    ensures fresh(t) && BuiltFrom(t, d)
  {
    if d.kind == "MP3" {
      t := new AudioTrack.Mp3(d.title, d.artists, d.duration, d.bpm, d.extraParam1, d.extraParam2 > 0);
    } else {
      t := new AudioTrack.Wav(d.title, d.artists, d.duration, d.bpm, d.extraParam1, d.extraParam2);
    }
  }

  /** Each track of `ts` is the one built from the descriptor at the same position of `ds`. */
  ghost predicate BuiltFromEach(ts: seq<AudioTrack>, ds: seq<TrackInfo>)
    reads ts
  {
    |ts| == |ds| && forall i :: 0 <= i < |ts| ==> BuiltFrom(ts[i], ds[i])
  }

  /** Appending a track built from `d` to the tracks keeps them matched with the descriptors plus `d`. */
  lemma {:induction false} BuiltFromEachAppend(ts: seq<AudioTrack>, ds: seq<TrackInfo>, t: AudioTrack, d: TrackInfo)
    requires BuiltFromEach(ts, ds) && BuiltFrom(t, d)
    ensures BuiltFromEach(ts + [t], ds + [d])
  {
  }

  /** The indices of `indices` that name a catalog entry, i.e. lie in [1, n], in input order. */
  function ValidIndices(indices: seq<int>, n: nat): (valid: seq<int>)
    ensures |valid| <= |indices|
  {
    if indices == [] then []
    else
      var init := ValidIndices(indices[..|indices| - 1], n);
      var last := indices[|indices| - 1];
      if 1 <= last <= n then init + [last] else init
  }

  /** An index is selected exactly when it occurs in the input and lies in [1, n]. */
  lemma {:induction false} ValidIndicesMembers(indices: seq<int>, n: nat)
    ensures forall i :: i in ValidIndices(indices, n) <==> i in indices && 1 <= i <= n
  {
    if indices != [] {
      var init := indices[..|indices| - 1];
      assert indices == init + [indices[|indices| - 1]];
      ValidIndicesMembers(init, n);
    }
  }

  /** `s` back to front. */
  function Reverse<T>(s: seq<T>): (r: seq<T>)
    ensures |r| == |s|
  {
    if s == [] then [] else [s[|s| - 1]] + Reverse(s[..|s| - 1])
  }

  /** Position `k` of the reversal holds position `|s| - 1 - k` of the original. */
  lemma {:induction false} ReverseAt<T>(s: seq<T>, k: nat)
    requires k < |s|
    ensures Reverse(s)[k] == s[|s| - 1 - k]
  {
    if k > 0 {
      ReverseAt(s[..|s| - 1], k - 1);
    }
  }

  /** Indices [2, 5, 1] over a three-track catalog pick entries 1 then 2, front to back. */
  lemma ThreeTrackExample()
    ensures Reverse(ValidIndices([2, 5, 1], 3)) == [1, 2]
  {
    assert [2, 5, 1][..2] == [2, 5];
    assert [2, 5][..1] == [2];
    assert [2][..0] == [];
  }

  /**
   * The catalog indices that the first `j` entries of `indices` put in the
   * playlist, front to back: each valid one goes in front of those before it.
   */
  function FrontInserted(indices: seq<int>, j: nat, n: nat): seq<int>
    requires j <= |indices|
  {
    if j == 0 then []
    else
      var earlier := FrontInserted(indices, j - 1, n);
      var i := indices[j - 1];
      if 1 <= i <= n then [i] + earlier else earlier
  }

  /** Inserting each valid index at the front yields the valid indices reversed. */
  lemma {:induction false} FrontInsertedIsReversedSelection(indices: seq<int>, j: nat, n: nat)
    requires j <= |indices|
    ensures FrontInserted(indices, j, n) == Reverse(ValidIndices(indices[..j], n))
  {
    if j > 0 {
      FrontInsertedIsReversedSelection(indices, j - 1, n);
      var prefix := indices[..j];
      assert prefix[..j - 1] == indices[..j - 1];
      var init := ValidIndices(indices[..j - 1], n);
      if 1 <= indices[j - 1] <= n {
        assert (init + [indices[j - 1]])[..|init|] == init;
      }
    }
  }

  /**
   * `copies[k]` is a field-identical copy of the catalog entry at 1-based
   * index `picked[k]`, for every k.
   */
  ghost predicate ClonesAt(copies: seq<AudioTrack>, catalog: seq<AudioTrack>, picked: seq<int>)
    reads copies, catalog
    decreases |copies|
  {
    && |copies| == |picked|
    && (copies != [] ==>
         && 1 <= picked[0] <= |catalog|
         && copies[0].SameFields(catalog[picked[0] - 1])
         && ClonesAt(copies[1..], catalog, picked[1..]))
  }

  /** Read position by position, `ClonesAt` says each copy matches the entry its index names. */
  lemma {:induction false} ClonesAtIndex(copies: seq<AudioTrack>, catalog: seq<AudioTrack>, picked: seq<int>, k: nat)
    requires ClonesAt(copies, catalog, picked) && k < |copies|
    ensures 1 <= picked[k] <= |catalog| && copies[k].SameFields(catalog[picked[k] - 1])
  {
    if k > 0 {
      ClonesAtIndex(copies[1..], catalog, picked[1..], k - 1);
    }
  }

  /**
   * Putting a new clone of the entry at index `i` in front of distinct copies
   * extends both the copies and the picked indices by one, and keeps them distinct.
   */
  lemma {:induction false} ClonesAtPrepend(c: AudioTrack, copies: seq<AudioTrack>, catalog: seq<AudioTrack>, i: int, picked: seq<int>)
    requires ClonesAt(copies, catalog, picked) && Distinct(copies) && c !in copies
    requires 1 <= i <= |catalog| && c.SameFields(catalog[i - 1])
    ensures ClonesAt([c] + copies, catalog, [i] + picked) && Distinct([c] + copies)
  {
    assert ([c] + copies)[1..] == copies && ([i] + picked)[1..] == picked;
    DistinctPrepend(c, copies);
  }

  /**
   * One step of loading a playlist: a clone of the catalog entry at 1-based
   * index `i` goes to the front of `p`, which stays distinct and whose copies
   * now match `[i] + picked`.
   */
  method AddCloneOf(p: Playlist, catalog: seq<AudioTrack>, i: int, ghost picked: seq<int>)
    requires p.Valid() && ClonesAt(p.nodes, catalog, picked) && Distinct(p.nodes)
    requires 1 <= i <= |catalog|
    modifies p
    ensures p.Valid() && p.name == old(p.name)
    ensures ClonesAt(p.nodes, catalog, [i] + picked) && Distinct(p.nodes)
    ensures |p.nodes| == |old(p.nodes)| + 1 && fresh(p.nodes[0]) && p.nodes[1..] == old(p.nodes)
  {
    var c := catalog[i - 1].Clone();
    ghost var before := p.nodes;
    ClonesAtPrepend(c, before, catalog, i, picked);
    p.AddTrack(c);
  }

  /**
   * The loop of loading a playlist: for each index in [1, |catalog|], in
   * input order, a clone of the entry it names goes to the front of the
   * empty playlist `p`; other indices are skipped.
   */
  method AddClones(p: Playlist, catalog: seq<AudioTrack>, indices: seq<int>)
    requires p.Valid() && p.nodes == []
    modifies p
    ensures p.Valid() && p.name == old(p.name)
    ensures ClonesAt(p.nodes, catalog, FrontInserted(indices, |indices|, |catalog|))
    ensures forall t :: t in p.nodes ==> fresh(t)
    ensures Distinct(p.nodes)
  {
    ghost var picked: seq<int> := [];
    var j := 0;
    while j < |indices|
      invariant 0 <= j <= |indices|
      invariant p.Valid() && p.name == old(p.name)
      invariant picked == FrontInserted(indices, j, |catalog|)
      invariant ClonesAt(p.nodes, catalog, picked)
      invariant forall t :: t in p.nodes ==> fresh(t)
      invariant Distinct(p.nodes)
    {
      var i := indices[j];
      if 1 <= i <= |catalog| {
        ghost var before := p.nodes;
        AddCloneOf(p, catalog, i, picked);
        assert p.nodes == [p.nodes[0]] + before;
        picked := [i] + picked;
      }
      j := j + 1;
    }
  }

  class DJLibraryService {
    var playlist: Playlist
    var library: seq<AudioTrack>

    ghost predicate Valid()
      reads this, playlist
    {
      playlist.Valid()
    }

    /** Starts with a copy of `initial` and an empty catalog. */
    constructor (initial: Playlist)
      requires initial.Valid()
      ensures Valid() && library == [] && fresh(playlist)
      ensures playlist.name == initial.name && ClonedFrom(playlist.nodes, initial.nodes)
      ensures forall t :: t in playlist.nodes ==> fresh(t)
      ensures Distinct(playlist.nodes)
    {
      playlist := new Playlist.Copy(initial);
      library := [];
    }

    /**
     * Appends one new track per MP3 or WAV descriptor, in input order, and
     * skips every other type.
     */
    method BuildLibrary(descriptors: seq<TrackInfo>)
      requires Valid()
      modifies this
      ensures Valid() && playlist == old(playlist)
      ensures |library| == |old(library)| + |Known(descriptors)|
      ensures library[..|old(library)|] == old(library)
      ensures BuiltFromEach(library[|old(library)|..], Known(descriptors))
      ensures forall t :: t in library[|old(library)|..] ==> fresh(t)
      ensures Distinct(library[|old(library)|..])
    {
      var added: seq<AudioTrack> := [];
      ghost var ks: seq<TrackInfo> := [];
      var j := 0;
      while j < |descriptors|
        modifies {}
        invariant 0 <= j <= |descriptors|
        invariant ks == Known(descriptors[..j])
        invariant BuiltFromEach(added, ks)
        invariant forall t :: t in added ==> fresh(t)
        invariant Distinct(added)
      {
        var d := descriptors[j];
        KnownStep(descriptors, j);
        if KnownKind(d) {
          var t := BuildTrack(d);
          BuiltFromEachAppend(added, ks, t, d);
          DistinctAppend(added, t);
          added := added + [t];
          ks := ks + [d];
        }
        j := j + 1;
      }
      assert descriptors[..j] == descriptors;
      var base := library;
      library := library + added;
      assert library[..|base|] == base && library[|base|..] == added;
    }

    /**
     * Replaces the playlist with an empty one called `playlistName`, then for
     * each index in [1, |library|] puts a clone of `library[index - 1]` at the
     * front; other indices are skipped. The playlist thus lists the clones in
     * reverse order of the valid indices. The catalog is only read.
     */
    method LoadPlaylistFromIndices(playlistName: string, indices: seq<int>)
      requires Valid()
      modifies playlist
      ensures Valid() && playlist.name == playlistName
      ensures playlist.trackCount == |ValidIndices(indices, |library|)|
      ensures library == old(library)
      ensures ClonesAt(playlist.nodes, library, Reverse(ValidIndices(indices, |library|)))
      ensures forall t :: t in playlist.nodes ==> fresh(t)
      ensures Distinct(playlist.nodes)
    {
      var empty := new Playlist(playlistName);
      playlist.Assign(empty);
      AddClones(playlist, library, indices);
      assert indices[..|indices|] == indices;
      FrontInsertedIsReversedSelection(indices, |indices|, |library|);
    }

    /** The playlist's first track titled `title`, or null. */
    method FindTrack(title: string) returns (r: AudioTrack?)
      ensures var k := FirstIndexOf(playlist.nodes, title);
        r == if k < |playlist.nodes| then playlist.nodes[k] else null
    {
      r := playlist.FindTrack(title);
    }

    /** The titles of the playlist's tracks, front to back. */
    method GetTrackTitles() returns (titles: seq<string>)
      ensures |titles| == |playlist.nodes|
      ensures forall i :: 0 <= i < |titles| ==> titles[i] == playlist.nodes[i].title
    {
      var tracks := playlist.GetTracks();
      titles := [];
      var i := 0;
      while i < |tracks|
        invariant 0 <= i <= |tracks|
        invariant |titles| == i
        invariant forall j :: 0 <= j < i ==> titles[j] == tracks[j].title
      {
        titles := titles + [tracks[i].title];
        i := i + 1;
      }
    }
  }
}
