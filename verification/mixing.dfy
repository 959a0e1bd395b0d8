/**
 * The two-deck mixer: two optional track slots, the index of the active one,
 * an auto-sync switch and a bpm tolerance. Each load clones the track into the
 * slot that is not active, may pull its bpm toward the active track's, then
 * unloads the previously active slot and makes the new one active.
 */
module Mixing {
  import opened CppArith
  import opened Tracks

  /** Two bpms can be mixed when they differ by at most `tolerance`. */
  function BpmCompatible(activeBpm: int, candidateBpm: int, tolerance: int): (ok: bool)
    ensures ok <==> activeBpm - tolerance <= candidateBpm <= activeBpm + tolerance
  {
    Abs(activeBpm - candidateBpm) <= tolerance
  }

  /** Compatibility does not depend on which of the two tracks is the active one. */
  lemma BpmCompatibleSymmetric(a: int, b: int, tolerance: int)
    ensures BpmCompatible(a, b, tolerance) == BpmCompatible(b, a, tolerance)
  {
  }

  /**
   * The synchronised bpm: the average of the two, truncated toward zero as
   * C++ int division does. Twice the result is the sum rounded toward zero,
   * and the result lies between the two inputs.
   */
  function SyncedBpm(candidateBpm: int, activeBpm: int): (r: int)
    ensures var sum := candidateBpm + activeBpm;
      (sum >= 0 ==> 0 <= sum - 2 * r <= 1) && (sum < 0 ==> -1 <= sum - 2 * r <= 0)
    ensures candidateBpm <= activeBpm ==> candidateBpm <= r <= activeBpm
    ensures activeBpm <= candidateBpm ==> activeBpm <= r <= candidateBpm
  {
    TruncDiv(candidateBpm + activeBpm, 2)
  }

  /** After a sync the gap to the active bpm is at most half the old gap, rounded up. */
  lemma SyncedBpmHalvesGap(candidateBpm: int, activeBpm: int)
    ensures Abs(SyncedBpm(candidateBpm, activeBpm) - activeBpm) <= (Abs(candidateBpm - activeBpm) + 1) / 2
  {
    var r := SyncedBpm(candidateBpm, activeBpm);
    var sum := candidateBpm + activeBpm;
    assert -1 <= sum - 2 * r <= 1;
  }

  /** The documented cases: 140 with 128 syncs to 134; at tolerance 3, 122 mixes with 120 and 125 does not. */
  lemma DocumentedCases()
    ensures SyncedBpm(140, 128) == 134
    ensures BpmCompatible(120, 122, 3) && !BpmCompatible(120, 125, 3)
  {
  }

  class MixingEngineService {
    const decks: array<AudioTrack?>
    var activeDeck: int
    var autoSync: bool
    var bpmTolerance: int

    /** Two slots, and the active index designates one of them. */
    ghost predicate Valid()
      reads this, decks
    {
      decks.Length == 2 && 0 <= activeDeck <= 1
    }

    /** Both decks empty, deck 1 active, no auto-sync, zero tolerance. */
    constructor ()
      ensures Valid() && fresh(decks)
      ensures decks[0] == null && decks[1] == null
      ensures activeDeck == 1 && !autoSync && bpmTolerance == 0
    {
      decks := new AudioTrack?[2](_ => null);
      activeDeck := 1;
      autoSync := false;
      bpmTolerance := 0;
    }

    /**
     * False when the active deck or the candidate is empty; otherwise whether
     * the two bpms lie within the tolerance of each other.
     */
    predicate CanMixTracks(candidate: AudioTrack?)
      requires Valid()
      reads this, decks, decks[activeDeck], candidate
      ensures CanMixTracks(candidate) <==>
        && decks[activeDeck] != null && candidate != null
        && decks[activeDeck].bpm - bpmTolerance <= candidate.bpm <= decks[activeDeck].bpm + bpmTolerance
    {
      var active := decks[activeDeck];
      if active == null || candidate == null then false
      else BpmCompatible(active.bpm, candidate.bpm, bpmTolerance)
    }

    /**
     * Sets the candidate's bpm to the truncated average of its own and the
     * active track's; does nothing when either is empty.
     */
    method SyncBpm(candidate: AudioTrack?)
      requires Valid()
      modifies candidate
      ensures candidate != null && old(decks[activeDeck]) != null ==>
        candidate.bpm == SyncedBpm(old(candidate.bpm), old(decks[activeDeck].bpm))
      ensures candidate != null && decks[activeDeck] == null ==> candidate.bpm == old(candidate.bpm)
    {
      var active := decks[activeDeck];
      if active == null || candidate == null {
        return;
      }
      var originalBpm := candidate.bpm;
      var newBpm := SyncedBpm(originalBpm, active.bpm);
      candidate.bpm := newBpm;
    }

    /**
     * `loadTrackToDeck` once the track has been cloned: `cloned` is the clone,
     * or null when cloning failed. A failed clone gives -1 and changes nothing.
     * Otherwise the clone goes to deck 1 on the first load and to the inactive
     * deck after that; its bpm is synced only when the active deck holds a
     * track, auto-sync is on and the two cannot be mixed; the previously
     * active deck is emptied and the target becomes active.
     */
    method LoadClone(cloned: AudioTrack?) returns (target: int)
      requires Valid()
      requires cloned != null ==> cloned != decks[0] && cloned != decks[1]
      modifies this, decks, cloned
      ensures Valid() && autoSync == old(autoSync) && bpmTolerance == old(bpmTolerance)
      ensures cloned == null ==>
        target == -1 && activeDeck == old(activeDeck) && decks[..] == old(decks[..])
      ensures cloned != null ==>
        && target == (if old(decks[0] == null && decks[1] == null) then 1 else 1 - old(activeDeck))
        && activeDeck == target
        && decks[target] == cloned
        && decks[1 - target] == null
      ensures cloned != null ==>
        var previous := old(decks[activeDeck]);
        cloned.bpm ==
          if previous != null && autoSync && !BpmCompatible(old(previous.bpm), old(cloned.bpm), bpmTolerance)
          then SyncedBpm(old(cloned.bpm), old(previous.bpm))
          else old(cloned.bpm)
    {
      if cloned == null {
        return -1;
      }
      var isFirstTrack := decks[0] == null && decks[1] == null;
      if isFirstTrack {
        target := 1;
      } else {
        target := 1 - activeDeck;
      }
      if decks[target] != null {
        decks[target] := null;
      }
      if !isFirstTrack && decks[activeDeck] != null && autoSync {
        if !CanMixTracks(cloned) {
          SyncBpm(cloned);
        }
      }
      decks[target] := cloned;
      if !isFirstTrack && decks[activeDeck] != null {
        decks[activeDeck] := null;
      }
      activeDeck := target;
    }

    /**
     * Loads a clone of `track`: the result is the new active deck, which holds
     * a new track with the fields of `track` (bpm possibly synced) while the
     * other deck is empty; `track` itself is left as it was.
     */
    method LoadTrackToDeck(track: AudioTrack) returns (target: int)
      requires Valid()
      modifies this, decks
      ensures Valid() && autoSync == old(autoSync) && bpmTolerance == old(bpmTolerance)
      ensures target == (if old(decks[0] == null && decks[1] == null) then 1 else 1 - old(activeDeck))
      ensures activeDeck == target && decks[1 - target] == null
      ensures decks[target] != null && fresh(decks[target])
      ensures var loaded := decks[target];
        && loaded.title == track.title && loaded.artists == track.artists
        && loaded.duration == track.duration && loaded.format == track.format
      ensures track.bpm == old(track.bpm)
      ensures var previous := old(decks[activeDeck]);
        decks[target].bpm ==
          if previous != null && autoSync && !BpmCompatible(old(previous.bpm), track.bpm, bpmTolerance)
          then SyncedBpm(track.bpm, old(previous.bpm))
          else track.bpm
    {
      var c := track.Clone();
      target := LoadClone(c);
    }
  }
  /**
   * A failed clone is reported from any state: on a new mixer the load gives
   * -1, then a real load goes to deck 1, and a second failed clone gives -1
   * again and leaves that track active on deck 1.
   */
  method FailedCloneLeavesDecks(track: AudioTrack)
    returns (early: int, first: int, failed: int, activeAfter: int, active: AudioTrack?)
    ensures early == -1 && first == 1 && failed == -1 && activeAfter == 1
    ensures active != null && active.title == track.title && active.duration == track.duration
  {
    var mixer := new MixingEngineService();
    early := mixer.LoadClone(null);
    first := mixer.LoadTrackToDeck(track);
    failed := mixer.LoadClone(null);
    activeAfter := mixer.activeDeck;
    active := mixer.decks[activeAfter];
  }
}
