/** Call sequences of a client of the sound module, showing the properties
    that span several operations: the cache deduplicates, Free and
    Shutdown are safe to repeat. */
module Scenarios {
  import opened Fmod
  import opened InternalSound
  import opened SoundSpec
  import opened CPSound

  /** Loading a new path twice creates one backend sound and hands back the
      same record both times. */
  method LoadTwiceCreatesOnce(s: SoundSystem, path: string, create: Reply) returns (a: Sound?, b: Sound?)
    requires s.Valid() && s.Live() && IsStorablePath(path) && !s.Cached(path) && create.ok
    modifies s`sounds, s`trace
    ensures a != null && a == b && a.filepath == path && a.sound == create.handle
    ensures s.sounds == old(s.sounds) + [a]
    ensures s.trace == old(s.trace) + [SystemCreateSound(s.system, path)]
  {
    a := s.Load(Some(path), true, create);
    assert a in s.sounds;
    b := s.Load(Some(path), true, create);
  }

  /** Freeing a cached sound twice releases it once: the first call nulls
      the caller's variable, which makes the second a no-op. */
  method FreeTwiceReleasesOnce(s: SoundSystem, ref: SoundRef)
    requires s.Valid() && s.Live() && ref.sound != null && ref.sound in s.sounds
    modifies s`sounds, s`trace, ref
    ensures ref.sound == null && old(ref.sound) !in s.sounds
    ensures s.trace == old(s.trace) + [SoundRelease(old(ref.sound).sound)]
  {
    s.Free(ref);
    s.Free(ref);
  }

  /** A second Shutdown after a live one issues nothing. */
  method ShutdownTwice(s: SoundSystem)
    requires s.Valid() && s.Live()
    modifies s`system, s`sounds, s`trace
    ensures !s.Live() && s.sounds == []
    ensures s.trace == old(s.trace) + ShutdownCalls(old(s.system), s.channelGroups[..], SoundHandles(old(s.sounds)))
  {
    s.Shutdown();
    s.Shutdown();
  }

  /** Mapping the lowpass cutoff to [1, 22000] as Init does and setting it
      half-way sends 11000.5 Hz to native parameter 0 of the lowpass DSP. */
  method LowpassCutoffHalfwayThroughTable(s: SoundSystem)
    requires s.Valid()
    modifies s.dspList, s`trace
    ensures s.trace == old(s.trace) + [DSPSetParameterFloat(s.dspList[LOWPASS].dsp, 0, 11000.5)]
  {
    s.MapParameter(LOWPASS, PARAM1, 0, 1.0, 22000.0);
    s.SetDSPParameter(LOWPASS, PARAM1, 0.5);
  }
}
