/** The record shapes of the sound module: a loaded sound and a DSP slot. */
module InternalSound {
  import opened Fmod

  /** A C pointer that may be NULL. */
  datatype Option<T> = None | Some(value: T)

  /** Length of the fixed `filepath` buffer of a sound record (Windows MAX_PATH). */
  const MAX_PATH: nat := 260

  /** A path that fits the record's buffer as a NUL-terminated C string:
      no NUL inside, and room for the terminator. */
  predicate IsStorablePath(s: string)
  {
    |s| < MAX_PATH && '\0' !in s
  }

  /** CP_Sound_Struct: a cache entry. Its identity is the object reference
      (CP_Sound is a pointer); it holds the cache key and one backend sound. */
  class Sound {
    const filepath: string
    const sound: Handle

    constructor (filepath: string, sound: Handle)
      requires IsStorablePath(filepath)
      ensures this.filepath == filepath && this.sound == sound
    {
      this.filepath := filepath;
      this.sound := sound;
    }
  }

  /** CP_Sound_DSP_Param_Struct: native parameter index and native range. */
  datatype ParamMap = ParamMap(index: int, min: real, max: real)

  /** The `param[2]` array of a DSP slot. */
  type ParamPair = s: seq<ParamMap> | |s| == 2 witness [ParamMap(0, 0.0, 0.0), ParamMap(0, 0.0, 0.0)]

  /** CP_Sound_DSP_Struct: one backend DSP object and two parameter mappings. */
  datatype DspSlot = DspSlot(dsp: Handle, param: ParamPair)

  /** A zero-initialised slot, as the static `dsp_list` holds before Init. */
  const ZeroSlot: DspSlot := DspSlot(Null, [ParamMap(0, 0.0, 0.0), ParamMap(0, 0.0, 0.0)])
}
