/** Constants, tables and the call sequences that specify the operations of
    the sound module (CP_Sound.c), with the properties proved about them. */
module SoundSpec {
  import opened Fmod
  import opened InternalSound

  /** Channels requested from FMOD_System_Init. */
  const MAX_FMOD_CHANNELS: int := 128

  /** The native index that marks a parameter mapping as unused. */
  const PARAM_NOTUSED: int := -1

  /** CP_SOUND_DSP_MAX and the slots of the effect table, in Init's order. */
  const DSP_MAX: nat := 8
  const LOWPASS: nat := 0
  const REVERB: nat := 1
  const ECHO: nat := 2
  const DISTORT: nat := 3
  const FLANGE: nat := 4
  const TREMOLO: nat := 5
  const CHORUS: nat := 6
  const PITCH: nat := 7

  /** CP_SOUND_DSP_PARAM: the two mapping positions of a slot. */
  const PARAM1: nat := 0
  const PARAM2: nat := 1

  /** The two groups the presets play into. */
  const SFX: int := 0
  const MUSIC: int := 1

  /** The backend effect type Init creates for each slot. */
  function DspKind(d: nat): DspType
    requires d < DSP_MAX
  {
    match d
    case 0 => ItLowpass
    case 1 => SfxReverb
    case 2 => Echo
    case 3 => Distortion
    case 4 => Flange
    case 5 => Tremolo
    case 6 => Chorus
    case _ => PitchShift
  }

  /** The parameter mappings Init writes into each slot. */
  function DefaultMapping(d: nat): ParamPair
    requires d < DSP_MAX
  {
    match d
    case 0 => [ParamMap(0, 1.0, 22000.0), ParamMap(1, 0.0, 127.0)]      // cutoff, resonance
    case 1 => [ParamMap(0, 100.0, 20000.0), ParamMap(11, -80.0, 20.0)]  // decay time, wet level
    case 2 => [ParamMap(0, 1.0, 5000.0), ParamMap(1, 0.0, 100.0)]       // delay, feedback
    case 3 => [ParamMap(0, 0.0, 1.0), ParamMap(PARAM_NOTUSED, 0.0, 0.0)]
    case 4 => [ParamMap(2, 0.0, 20.0), ParamMap(0, 0.0, 100.0)]         // rate, mix
    case 5 => [ParamMap(0, 0.1, 20.0), ParamMap(1, 0.0, 1.0)]           // frequency, depth
    case 6 => [ParamMap(2, 0.0, 100.0), ParamMap(0, 0.0, 100.0)]        // modulation depth, mix
    case _ => [ParamMap(0, 0.5, 2.0), ParamMap(PARAM_NOTUSED, 0.0, 0.0)]
  }

  /** Every slot of the table has a backend type and two mappings; exactly
      the second parameters of distortion and pitch shift are unused, and
      every used mapping has a non-empty native range. */
  lemma DefaultMappingsShape()
    ensures forall d, p :: 0 <= d < DSP_MAX && 0 <= p < 2 ==>
      (DefaultMapping(d)[p].index == PARAM_NOTUSED <==> p == PARAM2 && (d == DISTORT || d == PITCH))
    ensures forall d, p :: 0 <= d < DSP_MAX && 0 <= p < 2 && DefaultMapping(d)[p].index != PARAM_NOTUSED ==>
      DefaultMapping(d)[p].min < DefaultMapping(d)[p].max
  {
    forall d, p | 0 <= d < DSP_MAX && 0 <= p < 2
      ensures DefaultMapping(d)[p].index == PARAM_NOTUSED <==> p == PARAM2 && (d == DISTORT || d == PITCH)
      ensures DefaultMapping(d)[p].index != PARAM_NOTUSED ==> DefaultMapping(d)[p].min < DefaultMapping(d)[p].max
    {
    }
  }

  // ---------------------------------------------------------------------
  // Parameter remapping (CP_Sound_SetDSPParameter)
  // ---------------------------------------------------------------------

  /** The native value sent for a normalised `value`: a linear map of [0, 1]
      onto [min, max], not clamped. */
  function Remap(m: ParamMap, value: real): (native: real)
    ensures value == 0.0 ==> native == m.min
    ensures value == 1.0 ==> native == m.max
  {
    (m.max - m.min) * value + m.min
  }

  /** The inverse of Remap on a non-empty range. */
  function Normalize(m: ParamMap, native: real): real
    requires m.min != m.max
  {
    (native - m.min) / (m.max - m.min)
  }

  /** Normalising the native value recovers the normalised input. */
  lemma RemapNormalize(m: ParamMap, value: real)
    requires m.min != m.max
    ensures Normalize(m, Remap(m, value)) == value
  {
    var w := m.max - m.min;
    calc {
      Normalize(m, Remap(m, value));
      (w * value + m.min - m.min) / w;
      (w * value) / w;
      value;
    }
  }

  /** Every native value is reached by remapping its normalised form. */
  lemma NormalizeRemap(m: ParamMap, native: real)
    requires m.min != m.max
    ensures Remap(m, Normalize(m, native)) == native
  {
    var w := m.max - m.min;
    calc {
      Remap(m, Normalize(m, native));
      w * ((native - m.min) / w) + m.min;
      { assert w * ((native - m.min) / w) == native - m.min; }
      native;
    }
  }

  /** On an increasing range, a normalised value in [0, 1] lands in
      [min, max], and the map is strictly increasing, so a value above 1
      overdrives past max and one below 0 lands under min. */
  lemma RemapMonotone(m: ParamMap, v1: real, v2: real)
    requires m.min < m.max && v1 < v2
    ensures Remap(m, v1) < Remap(m, v2)
  {
    var w, d := m.max - m.min, v2 - v1;
    assert Remap(m, v2) == w * (v1 + d) + m.min == w * v1 + w * d + m.min;
    assert w * d > 0.0;
  }

  lemma RemapWithinRange(m: ParamMap, value: real)
    requires m.min < m.max && 0.0 <= value <= 1.0
    ensures m.min <= Remap(m, value) <= m.max
  {
    if value > 0.0 { RemapMonotone(m, 0.0, value); }
    if value < 1.0 { RemapMonotone(m, value, 1.0); }
  }

  lemma RemapUnclamped(m: ParamMap, value: real)
    requires m.min < m.max
    ensures value > 1.0 ==> Remap(m, value) > m.max
    ensures value < 0.0 ==> Remap(m, value) < m.min
  {
    if value > 1.0 { RemapMonotone(m, 1.0, value); }
    if value < 0.0 { RemapMonotone(m, value, 0.0); }
  }

  /** The worked example: half-way on the lowpass cutoff is 11000.5 Hz. */
  lemma LowpassCutoffHalfway()
    ensures Remap(DefaultMapping(LOWPASS)[PARAM1], 0.5) == 11000.5
  {
  }

  // ---------------------------------------------------------------------
  // Loops that stop at the first failing backend call
  // ---------------------------------------------------------------------

  /** The statuses of a list of replies. */
  function Oks(rs: seq<Reply>): seq<bool>
  {
    seq(|rs|, i requires 0 <= i < |rs| => rs[i].ok)
  }

  /** The position of the first failure, or |oks| when every call succeeds. */
  function FirstFalse(oks: seq<bool>): (k: nat)
    ensures k <= |oks|
    ensures forall i :: 0 <= i < k ==> oks[i]
    ensures k < |oks| ==> !oks[k]
  {
    if oks == [] then 0 else if !oks[0] then 0 else 1 + FirstFalse(oks[1..])
  }

  /** How many calls a loop over `oks` makes when it stops after the first
      failing one: every call before the last succeeded, and the loop ends
      early only on a failure. */
  function Attempts(oks: seq<bool>): (n: nat)
    ensures n <= |oks|
    ensures forall i :: 0 <= i < n - 1 ==> oks[i]
    ensures n < |oks| ==> 0 < n && !oks[n - 1]
    ensures (forall i :: 0 <= i < |oks| ==> oks[i]) ==> n == |oks|
  {
    var k := FirstFalse(oks);
    if k < |oks| then k + 1 else k
  }

  /** FirstFalse is the only position before which everything succeeded
      and at which the call failed. */
  lemma FirstFalseUnique(oks: seq<bool>, k: nat)
    requires k <= |oks|
    requires forall i :: 0 <= i < k ==> oks[i]
    requires k < |oks| ==> !oks[k]
    ensures FirstFalse(oks) == k
  {
  }

  /** A loop that stops at the first failure, at position `d` with no
      failure before: a success lets it go on, a failure makes `d + 1` the
      number of attempts, and running off the end means all succeeded. */
  lemma AttemptStep(oks: seq<bool>, d: nat)
    requires d <= FirstFalse(oks)
    ensures d < |oks| && oks[d] ==> d + 1 <= FirstFalse(oks)
    ensures d < |oks| && !oks[d] ==> Attempts(oks) == d + 1
    ensures d == |oks| ==> Attempts(oks) == |oks|
  {
    if d < |oks| && !oks[d] {
      FirstFalseUnique(oks, d);
    }
  }

  // ---------------------------------------------------------------------
  // Loading (CP_Sound_LoadInternal)
  // ---------------------------------------------------------------------

  /** The backend call that creates a sound: streamed from disk, or fully
      loaded into memory. */
  function CreateCall(system: Handle, path: string, streamFromDisc: bool): Call
  {
    if streamFromDisc then SystemCreateStream(system, path) else SystemCreateSound(system, path)
  }

  // ---------------------------------------------------------------------
  // Playback (CP_Sound_PlayAdvanced)
  // ---------------------------------------------------------------------

  /** A negative volume or pitch is raised to 0. */
  function NonNegative(x: real): real
  {
    if x < 0.0 then 0.0 else x
  }

  /** The calls PlayAdvanced issues for a valid group and a non-null sound;
      `play` is the answer to the play call (its handle is the channel). */
  function PlayCalls(system: Handle, sound: Handle, group: Handle, volume: real, pitch: real,
                     looping: bool, play: Reply): seq<Call>
  {
    var ch := play.handle;
    [SystemPlaySound(system, sound, group, true)] +
    if !play.ok then []
    else
      (if volume != 1.0 then [ChannelSetVolume(ch, NonNegative(volume))] else []) +
      (if pitch != 1.0 then [ChannelSetPitch(ch, NonNegative(pitch))] else []) +
      (if looping then [ChannelSetMode(ch, LoopNormal), ChannelSetLoopCount(ch, -1)] else []) +
      [ChannelSetPaused(ch, false)]
  }

  /** The sound is started paused in the target group; a failed play is the
      only call; a successful one ends by unpausing that channel and
      unpauses nothing before. */
  lemma PlayStartsPausedEndsUnpaused(system: Handle, sound: Handle, group: Handle, volume: real,
                                     pitch: real, looping: bool, play: Reply)
    ensures var r := PlayCalls(system, sound, group, volume, pitch, looping, play);
      && r[0] == SystemPlaySound(system, sound, group, true)
      && (!play.ok ==> r == [r[0]])
      && (play.ok ==> r[|r| - 1] == ChannelSetPaused(play.handle, false))
      && (forall i :: 0 <= i < |r| - 1 ==> !r[i].ChannelSetPaused?)
  {
  }

  /** A volume call is issued iff the play succeeded and the volume is not
      1, and its value is the volume raised to at least 0; likewise pitch. */
  lemma PlayVolumeAndPitch(system: Handle, sound: Handle, group: Handle, volume: real,
                           pitch: real, looping: bool, play: Reply)
    ensures var r := PlayCalls(system, sound, group, volume, pitch, looping, play);
      && ((exists i :: 0 <= i < |r| && r[i].ChannelSetVolume?) <==> play.ok && volume != 1.0)
      && (forall i :: 0 <= i < |r| && r[i].ChannelSetVolume? ==>
            r[i] == ChannelSetVolume(play.handle, NonNegative(volume)) && r[i].volume >= 0.0)
      && ((exists i :: 0 <= i < |r| && r[i].ChannelSetPitch?) <==> play.ok && pitch != 1.0)
      && (forall i :: 0 <= i < |r| && r[i].ChannelSetPitch? ==>
            r[i] == ChannelSetPitch(play.handle, NonNegative(pitch)) && r[i].pitch >= 0.0)
  {
    var r := PlayCalls(system, sound, group, volume, pitch, looping, play);
    if play.ok && volume != 1.0 {
      assert r[1].ChannelSetVolume?;
    }
    if play.ok && pitch != 1.0 {
      var j := if volume != 1.0 then 2 else 1;
      assert r[j].ChannelSetPitch?;
    }
  }

  /** Looping is requested iff the play succeeded and `looping` is set:
      then the loop mode is set and is immediately followed by an infinite
      loop count. */
  lemma PlayLooping(system: Handle, sound: Handle, group: Handle, volume: real,
                    pitch: real, looping: bool, play: Reply)
    ensures var r := PlayCalls(system, sound, group, volume, pitch, looping, play);
      && ((exists i :: 0 <= i < |r| && r[i].ChannelSetMode?) <==> play.ok && looping)
      && ((exists i :: 0 <= i < |r| && r[i].ChannelSetLoopCount?) <==> play.ok && looping)
      && (forall i :: 0 <= i < |r| && r[i].ChannelSetMode? ==>
            r[i] == ChannelSetMode(play.handle, LoopNormal) && i + 1 < |r| &&
            r[i + 1] == ChannelSetLoopCount(play.handle, -1))
  {
    var r := PlayCalls(system, sound, group, volume, pitch, looping, play);
    if play.ok && looping {
      var j := 1 + (if volume != 1.0 then 1 else 0) + (if pitch != 1.0 then 1 else 0);
      assert r[j].ChannelSetMode? && r[j + 1].ChannelSetLoopCount?;
    }
  }

  /** With volume and pitch 1 and no looping (the Play preset, and PlayMusic
      but for the loop), only the play and the unpause are issued. */
  lemma PlayDefaultsIssueNoSetters(system: Handle, sound: Handle, group: Handle, looping: bool, play: Reply)
    ensures PlayCalls(system, sound, group, 1.0, 1.0, looping, play) ==
      [SystemPlaySound(system, sound, group, true)] +
      (if !play.ok then []
       else if looping then [ChannelSetMode(play.handle, LoopNormal), ChannelSetLoopCount(play.handle, -1),
                             ChannelSetPaused(play.handle, false)]
       else [ChannelSetPaused(play.handle, false)])
  {
  }

  // ---------------------------------------------------------------------
  // Lifecycle (CP_Sound_Init, CP_Sound_Shutdown)
  // ---------------------------------------------------------------------

  /** The backend sound handles of a list of records. */
  function SoundHandles(sounds: seq<Sound>): seq<Handle>
  {
    seq(|sounds|, i requires 0 <= i < |sounds| => sounds[i].sound)
  }

  /** The backend DSP handles of a list of effect slots. */
  function SlotHandles(slots: seq<DspSlot>): seq<Handle>
  {
    seq(|slots|, d requires 0 <= d < |slots| => slots[d].dsp)
  }

  /** The calls Shutdown issues when the system is live: stop every group,
      release every cached sound, release the system. */
  function ShutdownCalls(system: Handle, groups: seq<Handle>, sounds: seq<Handle>): seq<Call>
  {
    Each(Stop, groups) + Each(Release, sounds) + [SystemRelease(system)]
  }

  /** Shutdown stops each group once in index order, then releases each
      cached sound once in cache order, and releases the system last. */
  lemma ShutdownOrder(system: Handle, groups: seq<Handle>, sounds: seq<Handle>)
    ensures var r := ShutdownCalls(system, groups, sounds);
      && |r| == |groups| + |sounds| + 1
      && (forall i :: 0 <= i < |groups| ==> r[i] == ChannelGroupStop(groups[i]))
      && (forall j :: 0 <= j < |sounds| ==> r[|groups| + j] == SoundRelease(sounds[j]))
      && r[|r| - 1] == SystemRelease(system)
  {
  }

  /** `n` group creations. */
  function GroupCreates(system: Handle, n: nat): seq<Call>
  {
    seq(n, i => SystemCreateChannelGroup(system))
  }

  /** The creations of the first `n` effect slots, in table order. */
  function DspCreates(system: Handle, n: nat): seq<Call>
    requires n <= DSP_MAX
  {
    seq(n, i requires 0 <= i < n => SystemCreateDSPByType(system, DspKind(i)))
  }

  /** One more slot adds its one creation at the end. */
  lemma DspCreatesStep(system: Handle, n: nat)
    requires n < DSP_MAX
    ensures DspCreates(system, n + 1) == DspCreates(system, n) + [SystemCreateDSPByType(system, DspKind(n))]
  {
  }

  /** The effect table after Init configured the slots below `n` from
      the backend's handles and the default mappings. */
  function Configured(n: nat, slots: seq<DspSlot>, replies: seq<Reply>): seq<DspSlot>
    requires n <= |slots| == |replies| == DSP_MAX
  {
    seq(DSP_MAX, d requires 0 <= d < DSP_MAX =>
      if d < n then DspSlot(replies[d].handle, DefaultMapping(d)) else slots[d])
  }

  /** The effect table after every creation of Init succeeded: slot `d`
      holds the `d`-th created DSP and the `d`-th default mappings. */
  function Installed(replies: seq<Reply>): seq<DspSlot>
    requires |replies| == DSP_MAX
  {
    seq(DSP_MAX, d requires 0 <= d < DSP_MAX => DspSlot(replies[d].handle, DefaultMapping(d)))
  }

  /** Once every slot is configured, the starting slots no longer matter. */
  lemma ConfiguredAll(slots: seq<DspSlot>, replies: seq<Reply>)
    requires |slots| == |replies| == DSP_MAX
    ensures Configured(DSP_MAX, slots, replies) == Installed(replies)
  {
  }

  /** The effect table after Init's effect creations, from `slots`: the
      slots before the first failing creation hold their DSP and default
      mappings, the failing slot holds the handle the backend wrote but its
      old mappings, and the slots after it are untouched. */
  function EffectTable(slots: seq<DspSlot>, replies: seq<Reply>): seq<DspSlot>
    requires |slots| == |replies| == DSP_MAX
  {
    var k := FirstFalse(Oks(replies));
    seq(DSP_MAX, d requires 0 <= d < DSP_MAX =>
      if d < k then DspSlot(replies[d].handle, DefaultMapping(d))
      else if d == k then slots[d].(dsp := replies[d].handle)
      else slots[d])
  }

  /** When every creation succeeds, the effect table is fully installed. */
  lemma EffectTableAllOk(slots: seq<DspSlot>, replies: seq<Reply>)
    requires |slots| == |replies| == DSP_MAX && AllOk(replies)
    ensures EffectTable(slots, replies) == Installed(replies)
  {
  }

  /** When creation `k` is the first to fail, the effect table is the one
      configured below `k` with the backend's handle written into slot `k`. */
  lemma EffectTableAtFailure(slots: seq<DspSlot>, replies: seq<Reply>, k: nat)
    requires |slots| == |replies| == DSP_MAX && k < DSP_MAX && FirstFalse(Oks(replies)) == k
    ensures EffectTable(slots, replies) == Configured(k, slots, replies)[k := slots[k].(dsp := replies[k].handle)]
  {
  }

  /** The handles the replies carry, in order. */
  function Handles(rs: seq<Reply>): seq<Handle>
  {
    seq(|rs|, i requires 0 <= i < |rs| => rs[i].handle)
  }

  /** The channel-group table after the creation loop wrote the first `n`
      replies into it. */
  function Stored(groups: seq<Handle>, replies: seq<Reply>, n: nat): seq<Handle>
    requires n <= |replies| == |groups|
  {
    seq(|groups|, i requires 0 <= i < |groups| => if i < n then replies[i].handle else groups[i])
  }

  /** Whether every reply in the list is a success. */
  predicate AllOk(rs: seq<Reply>)
  {
    FirstFalse(Oks(rs)) == |rs|
  }

  /** Whether Init leaves the system live. */
  predicate InitSucceeds(create: Reply, initOk: bool, groupReplies: seq<Reply>, dspReplies: seq<Reply>)
  {
    create.ok && initOk && AllOk(groupReplies) && AllOk(dspReplies)
  }

  /** The calls Init issues once the system is created and initialised:
      the group creations, then, if they all succeeded, the effect
      creations; a failure in either is followed by a shutdown, which stops
      the groups the table holds by then (no sound is cached yet) and
      releases the system. */
  function SetupCalls(sys: Handle, groupReplies: seq<Reply>, dspReplies: seq<Reply>, groups: seq<Handle>): seq<Call>
    requires |groupReplies| == |groups| && |dspReplies| == DSP_MAX
  {
    GroupCreates(sys, Attempts(Oks(groupReplies))) +
    (if AllOk(groupReplies) then DspCreates(sys, Attempts(Oks(dspReplies))) else []) +
    (if AllOk(groupReplies) && AllOk(dspReplies) then []
     else ShutdownCalls(sys, Stored(groups, groupReplies, Attempts(Oks(groupReplies))), []))
  }

  /** The calls Init issues, given the backend's answers and the
      channel-group table it starts from. */
  function InitCalls(create: Reply, initOk: bool, groupReplies: seq<Reply>, dspReplies: seq<Reply>,
                     groups: seq<Handle>): seq<Call>
    requires |groupReplies| == |groups| && |dspReplies| == DSP_MAX
  {
    [SystemCreate] +
    (if create.ok then [SystemInit(create.handle, MAX_FMOD_CHANNELS)] else []) +
    (if create.ok && initOk then SetupCalls(create.handle, groupReplies, dspReplies, groups) else [])
  }

  /** No call of the list releases the system. */
  predicate NoRelease(r: seq<Call>)
  {
    forall i :: 0 <= i < |r| ==> !r[i].SystemRelease?
  }

  lemma NoReleaseAppend(a: seq<Call>, b: seq<Call>)
    requires NoRelease(a) && NoRelease(b)
    ensures NoRelease(a + b)
  {
  }

  /** Init releases the system iff it got past FMOD_System_Init and then
      failed; when FMOD_System_Init fails the created system is dropped
      without a release. On success, one group is created per table entry
      and one effect per slot. */
  lemma InitReleaseOnlyAfterSystemInit(create: Reply, initOk: bool, groupReplies: seq<Reply>,
                                       dspReplies: seq<Reply>, groups: seq<Handle>)
    requires |groupReplies| == |groups| && |dspReplies| == DSP_MAX
    ensures var r := InitCalls(create, initOk, groupReplies, dspReplies, groups);
      && ((exists i :: 0 <= i < |r| && r[i].SystemRelease?) <==>
            create.ok && initOk && !InitSucceeds(create, initOk, groupReplies, dspReplies))
      && (InitSucceeds(create, initOk, groupReplies, dspReplies) ==>
            r == [SystemCreate, SystemInit(create.handle, MAX_FMOD_CHANNELS)] +
                 GroupCreates(create.handle, |groups|) + DspCreates(create.handle, DSP_MAX))
  {
    var r := InitCalls(create, initOk, groupReplies, dspReplies, groups);
    var sys := create.handle;
    if create.ok && initOk {
      var g := Attempts(Oks(groupReplies));
      var head := [SystemCreate] + [SystemInit(sys, MAX_FMOD_CHANNELS)];
      var creates := GroupCreates(sys, g) +
        (if AllOk(groupReplies) then DspCreates(sys, Attempts(Oks(dspReplies))) else []);
      var tail := if AllOk(groupReplies) && AllOk(dspReplies) then []
                  else ShutdownCalls(sys, Stored(groups, groupReplies, g), []);
      assert r == head + (creates + tail);
      NoReleaseAppend(head, creates);
      if InitSucceeds(create, initOk, groupReplies, dspReplies) {
        assert r == head + creates;
        assert g == |groups|;
      } else {
        ShutdownOrder(sys, Stored(groups, groupReplies, g), []);
        assert r[|r| - 1] == tail[|tail| - 1];
      }
    }
  }

  // ---------------------------------------------------------------------
  // Sequence helpers
  // ---------------------------------------------------------------------

  /** Regrouping a concatenation; the traces are built by appending on the
      right, and the call-sequence functions are written the same way. */
  lemma AppendAssoc<T>(a: seq<T>, b: seq<T>, c: seq<T>)
    ensures a + (b + c) == a + b + c
  {
  }
}
