/** The audio backend (FMOD) as the sound module sees it.

    The backend is opaque: its objects are handles, and every call the sound
    module makes into it is recorded, in order, as a `Call` value. What the
    backend does with a call (decoding, mixing, effects) is not modelled; the
    status it answers is a parameter of the module's operations. */
module Fmod {

  /** An opaque backend object pointer (FMOD_SYSTEM*, FMOD_SOUND*,
      FMOD_CHANNELGROUP*, FMOD_DSP*, FMOD_CHANNEL*); `Null` is NULL. */
  datatype Handle = Null | Obj(id: nat)

  /** The answer to a backend call: whether it returned FMOD_OK, and the
      pointer it wrote to its out-parameter (for calls that have one). */
  datatype Reply = Reply(ok: bool, handle: Handle)

  /** The FMOD_DSP_TYPE values the module creates effects from. */
  datatype DspType = ItLowpass | SfxReverb | Echo | Distortion | Flange | Tremolo | Chorus | PitchShift

  /** The channel modes the module sets (only FMOD_LOOP_NORMAL). */
  datatype Mode = LoopNormal

  /** One backend call, with the arguments the module passes. */
  datatype Call =
    | SystemCreate
    | SystemInit(system: Handle, maxChannels: int)
    | SystemUpdate(system: Handle)
    | SystemRelease(system: Handle)
    | SystemCreateSound(system: Handle, path: string)
    | SystemCreateStream(system: Handle, path: string)
    | SystemCreateChannelGroup(system: Handle)
    | SystemCreateDSPByType(system: Handle, kind: DspType)
    | SystemPlaySound(system: Handle, sound: Handle, group: Handle, paused: bool)
    | SoundRelease(sound: Handle)
    | ChannelSetVolume(channel: Handle, volume: real)
    | ChannelSetPitch(channel: Handle, pitch: real)
    | ChannelSetMode(channel: Handle, mode: Mode)
    | ChannelSetLoopCount(channel: Handle, count: int)
    | ChannelSetPaused(channel: Handle, paused: bool)
    | ChannelGroupSetPaused(group: Handle, paused: bool)
    | ChannelGroupStop(group: Handle)
    | ChannelGroupSetVolume(group: Handle, volume: real)
    | ChannelGroupGetVolume(group: Handle)
    | ChannelGroupSetPitch(group: Handle, pitch: real)
    | ChannelGroupGetPitch(group: Handle)
    | ChannelGroupAddDSP(group: Handle, position: int, dsp: Handle)
    | ChannelGroupRemoveDSP(group: Handle, dsp: Handle)
    | DSPSetActive(dsp: Handle, active: bool)
    | DSPSetParameterFloat(dsp: Handle, index: int, value: real)
    | DSPReset(dsp: Handle)

  /** A call that a loop of the module issues once per handle of a list. */
  datatype HandleOp = Pause | Resume | Stop | Release | RemoveDspFrom(group: Handle) | Reset
  {
    function On(h: Handle): Call {
      match this
      case Pause => ChannelGroupSetPaused(h, true)
      case Resume => ChannelGroupSetPaused(h, false)
      case Stop => ChannelGroupStop(h)
      case Release => SoundRelease(h)
      case RemoveDspFrom(group) => ChannelGroupRemoveDSP(group, h)
      case Reset => DSPReset(h)
    }
  }

  /** The calls of a loop that applies `op` to every handle of `hs`, first to
      last: exactly one call per handle, in list order. */
  function Each(op: HandleOp, hs: seq<Handle>): (r: seq<Call>)
    ensures |r| == |hs|
    ensures forall i :: 0 <= i < |hs| ==> r[i] == op.On(hs[i])
  {
    if hs == [] then [] else Each(op, hs[..|hs| - 1]) + [op.On(hs[|hs| - 1])]
  }

  /** One more handle of a list adds its one call at the end. */
  lemma EachStep(op: HandleOp, hs: seq<Handle>, i: nat)
    requires i < |hs|
    ensures Each(op, hs[..i + 1]) == Each(op, hs[..i]) + [op.On(hs[i])]
  {
    assert hs[..i + 1][..i] == hs[..i];
  }
}
