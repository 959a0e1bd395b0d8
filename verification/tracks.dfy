/**
 * The track abstraction: an AudioTrack with title, artists, duration and bpm,
 * and a format part that distinguishes the compressed (MP3) variant from the
 * uncompressed (WAV) one. Only the bpm can change after construction.
 */
module Tracks {
  import opened CppArith

  /** The variant-specific fields of a track. */
  datatype Format =
    | Mp3Format(bitrate: int, qualityFlag: bool)
    | WavFormat(sampleRate: int, bitDepth: int)

  class AudioTrack {
    const title: string
    const artists: seq<string>
    const duration: int
    var bpm: int
    const format: Format

    /** An MP3 track; the MP3 variant's own members are not part of this model. */
    constructor Mp3(title: string, artists: seq<string>, duration: int, bpm: int,
                    bitrate: int, qualityFlag: bool)
      ensures this.title == title && this.artists == artists
      ensures this.duration == duration && this.bpm == bpm
      ensures format == Mp3Format(bitrate, qualityFlag)
    {
      this.title := title;
      this.artists := artists;
      this.duration := duration;
      this.bpm := bpm;
      format := Mp3Format(bitrate, qualityFlag);
    }

    /** A WAV track: the common fields go to the base part unchanged. */
    constructor Wav(title: string, artists: seq<string>, duration: int, bpm: int,
                    sampleRate: int, bitDepth: int)
      ensures this.title == title && this.artists == artists
      ensures this.duration == duration && this.bpm == bpm
      ensures format == WavFormat(sampleRate, bitDepth)
    {
      this.title := title;
      this.artists := artists;
      this.duration := duration;
      this.bpm := bpm;
      format := WavFormat(sampleRate, bitDepth);
    }

    /** The member-wise copy that `clone` allocates. */
    constructor CopyOf(other: AudioTrack)
      ensures SameFields(other)
    {
      title := other.title;
      artists := other.artists;
      duration := other.duration;
      bpm := other.bpm;
      format := other.format;
    }

    /** Every field of this track equals the corresponding field of `other`. */
    ghost predicate SameFields(other: AudioTrack)
      reads this, other
    {
      && title == other.title
      && artists == other.artists
      && duration == other.duration
      && bpm == other.bpm
      && format == other.format
    }

    /**
     * A new, independently owned track with the same fields; the source is
     * left as it was (the method modifies nothing).
     */
    method Clone() returns (c: AudioTrack)
      ensures fresh(c) && c.SameFields(this)
    {
      c := new AudioTrack.CopyOf(this);
    }
  }

  /** No track object appears at two positions of `ts`: each position owns its own track. */
  predicate Distinct(ts: seq<AudioTrack>)
  {
    forall i, j :: 0 <= i < j < |ts| ==> ts[i] != ts[j]
  }

  /** A track not yet in a distinct sequence may be put at its end and it stays distinct. */
  lemma {:induction false} DistinctAppend(ts: seq<AudioTrack>, t: AudioTrack)
    requires Distinct(ts) && t !in ts
    ensures Distinct(ts + [t])
  {
  }

  /** A track not yet in a distinct sequence may be put in front and it stays distinct. */
  lemma {:induction false} DistinctPrepend(t: AudioTrack, ts: seq<AudioTrack>)
    requires Distinct(ts) && t !in ts
    ensures Distinct([t] + ts)
  {
  }

  /** Element-wise, `copies` are field-identical copies of `originals`, in order. */
  ghost predicate ClonedFrom(copies: seq<AudioTrack>, originals: seq<AudioTrack>)
    reads copies, originals
  {
    |copies| == |originals| &&
    forall i :: 0 <= i < |copies| ==> copies[i].SameFields(originals[i])
  }

  /** Quality points for the sample rate: 10 at 44.1 kHz, 5 more at 96 kHz. */
  function RateBonus(sampleRate: int): int
  {
    if sampleRate >= 96000 then 15 else if sampleRate >= 44100 then 10 else 0
  }

  /** Quality points for the bit depth: 10 at 16 bits, 5 more at 24 bits. */
  function DepthBonus(bitDepth: int): int
  {
    if bitDepth >= 24 then 15 else if bitDepth >= 16 then 10 else 0
  }

  /**
   * The WAV quality score: 70, raised step by step for each threshold the
   * sample rate and the bit depth reach, then capped at 100.
   */
  function WavQualityScore(sampleRate: int, bitDepth: int): (score: int)
    ensures 70 <= score <= 100
    ensures score == 70 + RateBonus(sampleRate) + DepthBonus(bitDepth)
    ensures score == 100 <==> sampleRate >= 96000 && bitDepth >= 24
    ensures score == 70 <==> sampleRate < 44100 && bitDepth < 16
  {
    var s0 := 70;
    var s1 := if sampleRate >= 44100 then s0 + 10 else s0;
    var s2 := if sampleRate >= 96000 then s1 + 5 else s1;
    var s3 := if bitDepth >= 16 then s2 + 10 else s2;
    var s4 := if bitDepth >= 24 then s3 + 5 else s3;
    if s4 > 100 then 100 else s4
  }

  /** A better sample rate and a deeper bit depth never lower the score. */
  lemma WavQualityScoreMonotone(rate1: int, depth1: int, rate2: int, depth2: int)
    requires rate1 <= rate2 && depth1 <= depth2
    ensures WavQualityScore(rate1, depth1) <= WavQualityScore(rate2, depth2)
  {
    assert RateBonus(rate1) <= RateBonus(rate2);
    assert DepthBonus(depth1) <= DepthBonus(depth2);
  }

  /**
   * The size `load` reports for a WAV track: duration times sample rate
   * times whole bytes per sample (C++ integer division) times two channels.
   */
  function WavEstimatedBytes(duration: int, sampleRate: int, bitDepth: int): (bytes: int)
    ensures -8 < bitDepth < 8 ==> bytes == 0
  {
    duration * sampleRate * TruncDiv(bitDepth, 8) * 2
  }

  /** With non-negative inputs the estimate is never negative. */
  lemma WavEstimatedBytesNonNegative(duration: int, sampleRate: int, bitDepth: int)
    requires 0 <= duration && 0 <= sampleRate && 0 <= bitDepth
    ensures 0 <= WavEstimatedBytes(duration, sampleRate, bitDepth)
  {
    var perSample := TruncDiv(bitDepth, 8);
    assert 0 <= perSample;
    assert 0 <= duration * sampleRate;
    assert 0 <= duration * sampleRate * perSample;
  }

  /** For a whole number of bytes per sample the estimate is the exact bit count over 8. */
  lemma WavEstimatedBytesWholeBytes(duration: int, sampleRate: int, bitDepth: int)
    requires bitDepth % 8 == 0
    ensures 8 * WavEstimatedBytes(duration, sampleRate, bitDepth) == 2 * duration * sampleRate * bitDepth
  {
    var perSample := TruncDiv(bitDepth, 8);
    assert bitDepth == 8 * (bitDepth / 8);
    assert 8 * perSample == bitDepth;
    var frames := duration * sampleRate;
    var twice := frames * 2;
    assert WavEstimatedBytes(duration, sampleRate, bitDepth) == twice * perSample;
    assert 8 * (twice * perSample) == twice * (8 * perSample);
    assert 2 * duration * sampleRate == twice;
  }
}
