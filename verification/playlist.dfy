/**
 * The playlist: an owned sequence of tracks, front to back, with a name and a
 * track count. New tracks go to the front; removal and lookup by title take
 * the first match from the front.
 */
module Playlists {
  import opened Tracks

  /** The position of the first track, from the front, titled `title`; `|ts|` when there is none. */
  function FirstIndexOf(ts: seq<AudioTrack>, title: string): (k: nat)
    ensures k <= |ts|
    ensures k < |ts| ==> ts[k].title == title
    ensures forall j :: 0 <= j < k ==> ts[j].title != title
  {
    if ts == [] then 0
    else if ts[0].title == title then 0
    else 1 + FirstIndexOf(ts[1..], title)
  }

  /** The sum of the durations of `ts`. */
  function TotalDuration(ts: seq<AudioTrack>): int
  {
    if ts == [] then 0 else TotalDuration(ts[..|ts| - 1]) + ts[|ts| - 1].duration
  }

  /** Putting a track in front adds its duration to the total. */
  lemma {:induction false} TotalDurationPrepend(t: AudioTrack, ts: seq<AudioTrack>)
    ensures TotalDuration([t] + ts) == t.duration + TotalDuration(ts)
  {
    if ts != [] {
      var init := ts[..|ts| - 1];
      assert ([t] + ts)[..|ts|] == [t] + init;
      TotalDurationPrepend(t, init);
    }
  }

  /** The total over a concatenation is the sum of the totals. */
  lemma {:induction false} TotalDurationAppend(a: seq<AudioTrack>, b: seq<AudioTrack>)
    ensures TotalDuration(a + b) == TotalDuration(a) + TotalDuration(b)
  {
    if b == [] {
      assert a + b == a;
    } else {
      var init := b[..|b| - 1];
      assert (a + b)[..|a + b| - 1] == a + init;
      TotalDurationAppend(a, init);
    }
  }

  /** Taking the track at `k` out lowers the total by exactly its duration. */
  lemma {:induction false} TotalDurationRemoveAt(ts: seq<AudioTrack>, k: nat)
    requires k < |ts|
    ensures TotalDuration(ts[..k] + ts[k + 1..]) == TotalDuration(ts) - ts[k].duration
  {
    var front, back := ts[..k], ts[k + 1..];
    var rest := [ts[k]] + back;
    assert ts == front + rest;
    TotalDurationAppend(front, rest);
    TotalDurationPrepend(ts[k], back);
    TotalDurationAppend(front, back);
  }

  /** Tracks with non-negative durations have a non-negative total. */
  lemma {:induction false} TotalDurationNonNegative(ts: seq<AudioTrack>)
    requires forall i :: 0 <= i < |ts| ==> ts[i].duration >= 0
    ensures TotalDuration(ts) >= 0
  {
    if ts != [] {
      TotalDurationNonNegative(ts[..|ts| - 1]);
    }
  }

  /** Removing the title of a track just put in front takes exactly that track out again. */
  lemma {:induction false} AddThenRemoveRestores(t: AudioTrack, ts: seq<AudioTrack>)
    ensures var s := [t] + ts;
      var k := FirstIndexOf(s, t.title);
      k == 0 && s[..k] + s[k + 1..] == ts
  {
    var s := [t] + ts;
    assert s[1..] == ts;
  }

  /** Clones of the tracks, one each, in the same order. */
  method CloneEach(ts: seq<AudioTrack>) returns (copies: seq<AudioTrack>)
    ensures ClonedFrom(copies, ts) && Distinct(copies)
    ensures forall i :: 0 <= i < |copies| ==> fresh(copies[i])
  {
    copies := [];
    var i := 0;
    while i < |ts|
      invariant 0 <= i <= |ts|
      invariant ClonedFrom(copies, ts[..i]) && Distinct(copies)
      invariant forall j :: 0 <= j < |copies| ==> fresh(copies[j])
    {
      var c := ts[i].Clone();
      copies := copies + [c];
      i := i + 1;
    }
    assert ts[..i] == ts;
  }

  class Playlist {
    var name: string
    var nodes: seq<AudioTrack>
    var trackCount: int

    /** The stored count is the number of nodes. */
    ghost predicate Valid()
      reads this
    {
      trackCount == |nodes|
    }

    /** An empty playlist called `name`. */
    constructor (name: string)
      ensures Valid() && this.name == name && nodes == []
    {
      this.name := name;
      nodes := [];
      trackCount := 0;
    }

    /** The copy constructor: same name and count, every track cloned, in order. */
    constructor Copy(other: Playlist)
      requires other.Valid()
      ensures Valid() && name == other.name && trackCount == other.trackCount
      ensures ClonedFrom(nodes, other.nodes) && Distinct(nodes)
      ensures forall i :: 0 <= i < |nodes| ==> fresh(nodes[i])
    {
      var copies := CloneEach(other.nodes);
      name := other.name;
      trackCount := other.trackCount;
      nodes := copies;
    }

    /**
     * Assignment: drops every track this playlist held, then takes the name,
     * the count and clones of the tracks of `other`, in order.
     */
    method Assign(other: Playlist)
      requires other != this && other.Valid()
      modifies this
      ensures Valid() && name == other.name && trackCount == other.trackCount
      ensures ClonedFrom(nodes, other.nodes) && Distinct(nodes)
      ensures forall i :: 0 <= i < |nodes| ==> fresh(nodes[i])
      ensures other.nodes == old(other.nodes)
    {
      nodes := [];
      name := other.name;
      trackCount := other.trackCount;
      var copies := CloneEach(other.nodes);
      nodes := copies;
    }

    /** A null track is rejected; any other goes to the front and the count grows by one. */
    method AddTrack(track: AudioTrack?)
      requires Valid()
      modifies this
      ensures Valid() && name == old(name)
      ensures track == null ==> nodes == old(nodes) && trackCount == old(trackCount)
      ensures track != null ==> nodes == [track] + old(nodes) && trackCount == old(trackCount) + 1
    {
      if track == null {
        return;
      }
      nodes := [track] + nodes;
      trackCount := trackCount + 1;
    }

    /**
     * Removes the first track from the front titled `title`, keeping the others
     * in order; with no such track nothing changes.
     */
    method RemoveTrack(title: string)
      requires Valid()
      modifies this
      ensures Valid() && name == old(name)
      ensures var k := FirstIndexOf(old(nodes), title);
        if k < |old(nodes)| then
          nodes == old(nodes)[..k] + old(nodes)[k + 1..] && trackCount == old(trackCount) - 1
        else
          nodes == old(nodes) && trackCount == old(trackCount)
    {
      var i := 0;
      while i < |nodes| && nodes[i].title != title
        invariant 0 <= i <= |nodes|
        invariant forall j :: 0 <= j < i ==> nodes[j].title != title
      {
        i := i + 1;
      }
      if i < |nodes| {
        nodes := nodes[..i] + nodes[i + 1..];
        trackCount := trackCount - 1;
      }
    }

    /** The first track from the front titled `title`, or null when none is. */
    method FindTrack(title: string) returns (r: AudioTrack?)
      ensures var k := FirstIndexOf(nodes, title);
        r == if k < |nodes| then nodes[k] else null
    {
      var i := 0;
      while i < |nodes|
        invariant 0 <= i <= |nodes|
        invariant forall j :: 0 <= j < i ==> nodes[j].title != title
      {
        if nodes[i].title == title {
          return nodes[i];
        }
        i := i + 1;
      }
      return null;
    }

    /** The sum of the durations of the tracks held. */
    method GetTotalDuration() returns (total: int)
      ensures total == TotalDuration(nodes)
    {
      total := 0;
      var i := 0;
      while i < |nodes|
        invariant 0 <= i <= |nodes|
        invariant total == TotalDuration(nodes[..i])
      {
        assert nodes[..i + 1][..i] == nodes[..i];
        total := total + nodes[i].duration;
        i := i + 1;
      }
      assert nodes[..i] == nodes;
    }

    /** The tracks held, front to back. */
    method GetTracks() returns (tracks: seq<AudioTrack>)
      ensures tracks == nodes
    {
      tracks := [];
      var i := 0;
      while i < |nodes|
        invariant 0 <= i <= |nodes|
        invariant tracks == nodes[..i]
      {
        tracks := tracks + [nodes[i]];
        i := i + 1;
      }
    }
  }

  /** Adding A, then B, then C to a new playlist lists them as C, B, A. */
  method AddedTracksComeOutReversed(a: AudioTrack, b: AudioTrack, c: AudioTrack)
    returns (order: seq<AudioTrack>, count: int)
    ensures order == [c, b, a] && count == 3
  {
    var p := new Playlist("order");
    p.AddTrack(a);
    p.AddTrack(b);
    p.AddTrack(c);
    order := p.GetTracks();
    count := p.trackCount;
  }
}
