/** The sound module of CProcessing (CP_Sound.c): a cache of loaded sounds,
    a table of channel groups, a registry of DSP effects and the backend
    system handle, driven by the public CP_Sound_* operations. */
module CPSound {
  import opened Fmod
  import opened InternalSound
  import opened SoundSpec

  /** A caller's CP_Sound variable, whose address CP_Sound_Free takes. */
  class SoundRef {
    var sound: Sound?

    constructor (sound: Sound?)
      ensures this.sound == sound
    {
      this.sound := sound;
    }
  }

  /** No two cached records share a path. */
  predicate DistinctPaths(sounds: seq<Sound>)
  {
    forall i, j :: 0 <= i < j < |sounds| ==> sounds[i].filepath != sounds[j].filepath
  }

  /** Removing one record keeps the remaining paths distinct. */
  lemma {:induction false} DistinctPathsRemove(sounds: seq<Sound>, i: nat)
    requires i < |sounds| && DistinctPaths(sounds)
    ensures DistinctPaths(sounds[..i] + sounds[i + 1..])
  {
    var r := sounds[..i] + sounds[i + 1..];
    forall a, b | 0 <= a < b < |r|
      ensures r[a].filepath != r[b].filepath
    {
      var a' := if a < i then a else a + 1;
      var b' := if b < i then b else b + 1;
      assert r[a] == sounds[a'] && r[b] == sounds[b'];
    }
  }

  /** The module-level state of CP_Sound.c. */
  class SoundSystem {
    /** CP_SOUND_GROUP_MAX. */
    const groupMax: nat
    /** `channel_groups`: one backend channel group per sound group. */
    const channelGroups: array<Handle>
    /** `dsp_list`: one effect slot per CP_SOUND_DSP value. */
    const dspList: array<DspSlot>
    /** `_fmod_system`. */
    var system: Handle
    /** The contents of `sound_vector`. */
    var sounds: seq<Sound>
    /** Every backend call issued so far, oldest first. */
    var trace: seq<Call>

    ghost predicate Valid()
      reads this`sounds
    {
      && 2 <= groupMax
      && channelGroups.Length == groupMax
      && dspList.Length == DSP_MAX
      && DistinctPaths(sounds)
      && (forall s :: s in sounds ==> IsStorablePath(s.filepath))
    }

    /** `_fmod_system != NULL`. */
    predicate Live()
      reads this`system
    {
      system != Null
    }

    /** CP_IsValidSoundGroup. */
    predicate IsValidSoundGroup(group: int)
    {
      0 <= group < groupMax
    }

    /** Some cached record holds `path`. */
    predicate Cached(path: string)
      reads this`sounds
    {
      exists s :: s in sounds && s.filepath == path
    }

    /** The static state before CP_Sound_Init: no system, no sounds, NULL
        channel groups and zeroed effect slots. */
    constructor (groupMax: nat)
      requires 2 <= groupMax
      ensures Valid() && this.groupMax == groupMax
      ensures !Live() && sounds == [] && trace == []
      ensures fresh(channelGroups) && fresh(dspList)
      ensures forall g :: 0 <= g < groupMax ==> channelGroups[g] == Null
      ensures forall d :: 0 <= d < DSP_MAX ==> dspList[d] == ZeroSlot
    {
      this.groupMax := groupMax;
      channelGroups := new Handle[groupMax](_ => Null);
      dspList := new DspSlot[DSP_MAX](_ => ZeroSlot);
      system := Null;
      sounds := [];
      trace := [];
    }

    // -------------------------------------------------------------------
    // Lifecycle
    // -------------------------------------------------------------------

    /** CP_Sound_Init. `create`, `initOk`, `groupReplies` and `dspReplies`
        are the backend's answers to System_Create, System_Init, each
        CreateChannelGroup and each CreateDSPByType. */
    method Init(create: Reply, initOk: bool, groupReplies: seq<Reply>, dspReplies: seq<Reply>)
      requires Valid()
      requires |groupReplies| == groupMax && |dspReplies| == DSP_MAX
      requires create.ok ==> create.handle != Null
      modifies this`system, this`sounds, this`trace, channelGroups, dspList
      ensures Valid() && sounds == []
      ensures trace == old(trace) + InitCalls(create, initOk, groupReplies, dspReplies, old(channelGroups[..]))
      ensures Live() <==> InitSucceeds(create, initOk, groupReplies, dspReplies)
      ensures Live() ==> system == create.handle
      ensures Live() ==> channelGroups[..] == Handles(groupReplies) && dspList[..] == Installed(dspReplies)
      ensures channelGroups[..] ==
        if create.ok && initOk then Stored(old(channelGroups[..]), groupReplies, Attempts(Oks(groupReplies)))
        else old(channelGroups[..])
      ensures dspList[..] ==
        if create.ok && initOk && AllOk(groupReplies) then EffectTable(old(dspList[..]), dspReplies)
        else old(dspList[..])
    {
      ghost var t0, groups0 := trace, channelGroups[..];
      var ok := Open(create, initOk);
      ghost var opening := [SystemCreate] + (if create.ok then [SystemInit(create.handle, MAX_FMOD_CHANNELS)] else []);
      AppendAssoc(t0, [SystemCreate], opening[1..]);
      if ok {
        Setup(groupReplies, dspReplies);
        AppendAssoc(t0, opening, SetupCalls(create.handle, groupReplies, dspReplies, groups0));
      }
    }

    /** The start of CP_Sound_Init: create the backend system, then
        initialise it with MAX_FMOD_CHANNELS channels; a failure of either
        leaves the system NULL without releasing anything. */
    method Open(create: Reply, initOk: bool) returns (ok: bool)
      requires Valid()
      requires create.ok ==> create.handle != Null
      modifies this`system, this`sounds, this`trace
      ensures Valid() && sounds == []
      ensures ok == Live() && ok == (create.ok && initOk)
      ensures ok ==> system == create.handle
      ensures trace == old(trace) + [SystemCreate] +
                       (if create.ok then [SystemInit(create.handle, MAX_FMOD_CHANNELS)] else [])
    {
      sounds := [];
      trace := trace + [SystemCreate];
      if !create.ok {
        system := Null;
        return false;
      }
      system := create.handle;
      trace := trace + [SystemInit(system, MAX_FMOD_CHANNELS)];
      if !initOk {
        system := Null;
        return false;
      }
      return true;
    }

    /** The part of CP_Sound_Init after FMOD_System_Init succeeded: create
        the channel groups, then the effects; shut down at the first
        failure. */
    method Setup(groupReplies: seq<Reply>, dspReplies: seq<Reply>)
      requires Valid() && Live() && sounds == []
      requires |groupReplies| == groupMax && |dspReplies| == DSP_MAX
      modifies this`system, this`sounds, this`trace, channelGroups, dspList
      ensures Valid() && sounds == []
      ensures trace == old(trace) + SetupCalls(old(system), groupReplies, dspReplies, old(channelGroups[..]))
      ensures Live() <==> AllOk(groupReplies) && AllOk(dspReplies)
      ensures Live() ==> system == old(system)
      ensures Live() ==> channelGroups[..] == Handles(groupReplies) && dspList[..] == Installed(dspReplies)
      ensures channelGroups[..] == Stored(old(channelGroups[..]), groupReplies, Attempts(Oks(groupReplies)))
      ensures dspList[..] == if AllOk(groupReplies) then EffectTable(old(dspList[..]), dspReplies) else old(dspList[..])
    {
      ghost var sys, t0, groups0 := system, trace, channelGroups[..];
      ghost var g := Attempts(Oks(groupReplies));
      ghost var creates := GroupCreates(sys, g);
      ghost var effects := if AllOk(groupReplies) then DspCreates(sys, Attempts(Oks(dspReplies))) else [];
      ghost var teardown := if AllOk(groupReplies) && AllOk(dspReplies) then []
                            else ShutdownCalls(sys, Stored(groups0, groupReplies, g), []);
      var ok := CreateGroups(groupReplies);
      ghost var groups1 := channelGroups[..];
      if ok {
        ok := CreateEffects(dspReplies);
      }
      assert trace == t0 + creates + effects;
      if !ok {
        Shutdown();
        assert SoundHandles([]) == [];
      }
      assert trace == t0 + creates + effects + teardown;
      AppendAssoc(t0, creates + effects, teardown);
      AppendAssoc(t0, creates, effects);
      assert AllOk(groupReplies) ==> groups1 == Handles(groupReplies);
    }

    /** The channel-group loop of CP_Sound_Init: create groups in index
        order while every creation succeeds; the backend writes each handle
        into the table whatever the status. */
    method CreateGroups(groupReplies: seq<Reply>) returns (ok: bool)
      requires Valid() && |groupReplies| == groupMax
      modifies this`trace, channelGroups
      ensures ok == AllOk(groupReplies)
      ensures trace == old(trace) + GroupCreates(system, Attempts(Oks(groupReplies)))
      ensures channelGroups[..] == Stored(old(channelGroups[..]), groupReplies, Attempts(Oks(groupReplies)))
    {
      var index := 0;
      ok := true;
      while index < groupMax && ok
        invariant 0 <= index <= groupMax
        invariant forall i :: 0 <= i < index - 1 ==> groupReplies[i].ok
        invariant ok ==> forall i :: 0 <= i < index ==> groupReplies[i].ok
        invariant !ok ==> 0 < index && !groupReplies[index - 1].ok
        invariant trace == old(trace) + GroupCreates(system, index)
        invariant channelGroups[..] == Stored(old(channelGroups[..]), groupReplies, index)
      {
        trace := trace + [SystemCreateChannelGroup(system)];
        channelGroups[index] := groupReplies[index].handle;
        ok := groupReplies[index].ok;
        index := index + 1;
      }
      if ok {
        FirstFalseUnique(Oks(groupReplies), groupMax);
      } else {
        FirstFalseUnique(Oks(groupReplies), index - 1);
      }
    }

    /** The effect slots below `n` are created and mapped as in the table,
        each of their creations succeeded, the trace since `t0` holds those
        creations, and the rest of the slots still hold `slots0`. */
    ghost predicate EffectsUpTo(n: nat, t0: seq<Call>, slots0: seq<DspSlot>, replies: seq<Reply>)
      reads this`trace, this`system, dspList
    {
      && n <= DSP_MAX && |slots0| == DSP_MAX && |replies| == DSP_MAX
      && FirstFalse(Oks(replies)) >= n
      && trace == t0 + DspCreates(system, n)
      && dspList[..] == Configured(n, slots0, replies)
    }

    /** The effect creations of CP_Sound_Init, in table order; stops at the
        first failing creation. */
    method CreateEffects(dspReplies: seq<Reply>) returns (ok: bool)
      requires Valid() && |dspReplies| == DSP_MAX
      modifies this`trace, dspList
      ensures ok == AllOk(dspReplies)
      ensures trace == old(trace) + DspCreates(system, Attempts(Oks(dspReplies)))
      ensures dspList[..] == EffectTable(old(dspList[..]), dspReplies)
      ensures ok ==> dspList[..] == Installed(dspReplies)
    {
      ghost var t0, s0, rs := trace, dspList[..], dspReplies;
      assert DspCreates(system, 0) == [];
      ok := CreateEffect(LOWPASS, ItLowpass, dspReplies[LOWPASS],
                         ParamMap(0, 1.0, 22000.0), ParamMap(1, 0.0, 127.0), t0, s0, rs);
      if !ok { return; }
      ok := CreateEffect(REVERB, SfxReverb, dspReplies[REVERB],
                         ParamMap(0, 100.0, 20000.0), ParamMap(11, -80.0, 20.0), t0, s0, rs);
      if !ok { return; }
      ok := CreateEffect(ECHO, Echo, dspReplies[ECHO],
                         ParamMap(0, 1.0, 5000.0), ParamMap(1, 0.0, 100.0), t0, s0, rs);
      if !ok { return; }
      ok := CreateEffect(DISTORT, Distortion, dspReplies[DISTORT],
                         ParamMap(0, 0.0, 1.0), ParamMap(PARAM_NOTUSED, 0.0, 0.0), t0, s0, rs);
      if !ok { return; }
      ok := CreateEffect(FLANGE, Flange, dspReplies[FLANGE],
                         ParamMap(2, 0.0, 20.0), ParamMap(0, 0.0, 100.0), t0, s0, rs);
      if !ok { return; }
      ok := CreateEffect(TREMOLO, Tremolo, dspReplies[TREMOLO],
                         ParamMap(0, 0.1, 20.0), ParamMap(1, 0.0, 1.0), t0, s0, rs);
      if !ok { return; }
      ok := CreateEffect(CHORUS, Chorus, dspReplies[CHORUS],
                         ParamMap(2, 0.0, 100.0), ParamMap(0, 0.0, 100.0), t0, s0, rs);
      if !ok { return; }
      ok := CreateEffect(PITCH, PitchShift, dspReplies[PITCH],
                         ParamMap(0, 0.5, 2.0), ParamMap(PARAM_NOTUSED, 0.0, 0.0), t0, s0, rs);
      if !ok { return; }
      FirstFalseUnique(Oks(dspReplies), DSP_MAX);
      ConfiguredAll(s0, rs);
      EffectTableAllOk(s0, rs);
    }

    /** One effect block of CP_Sound_Init: FMOD_System_CreateDSPByType into
        slot `d` (the backend writes the handle whatever the status), then,
        if it succeeded, the slot's two MapParameter calls. */
    method CreateEffect(d: nat, kind: DspType, reply: Reply, param1: ParamMap, param2: ParamMap,
                        ghost t0: seq<Call>, ghost slots0: seq<DspSlot>, ghost replies: seq<Reply>)
      returns (ok: bool)
      requires Valid() && d < DSP_MAX && EffectsUpTo(d, t0, slots0, replies)
      requires kind == DspKind(d) && reply == replies[d] && [param1, param2] == DefaultMapping(d)
      modifies this`trace, dspList
      ensures ok == reply.ok
      ensures ok ==> EffectsUpTo(d + 1, t0, slots0, replies)
      ensures !ok ==> !AllOk(replies) && trace == t0 + DspCreates(system, Attempts(Oks(replies)))
      ensures !ok ==> dspList[..] == EffectTable(slots0, replies)
    {
      trace := trace + [SystemCreateDSPByType(system, kind)];
      dspList[d] := dspList[d].(dsp := reply.handle);
      DspCreatesStep(system, d);
      ok := reply.ok;
      if !ok {
        FirstFalseUnique(Oks(replies), d);
        EffectTableAtFailure(slots0, replies, d);
        return;
      }
      ghost var before := dspList[..];
      MapParameter(d, PARAM1, param1.index, param1.min, param1.max);
      MapParameter(d, PARAM2, param2.index, param2.min, param2.max);
      assert dspList[d].param == [param1, param2];
      forall e | 0 <= e < DSP_MAX
        ensures dspList[e] == Configured(d + 1, slots0, replies)[e]
      {
        if e != d {
          assert dspList[e] == before[e] == Configured(d, slots0, replies)[e];
        }
      }
    }

    /** CP_Sound_Update: one backend update when live; a failed update shuts
        the module down. */
    method Update(ok: bool)
      requires Valid()
      modifies this`system, this`sounds, this`trace
      ensures Valid()
      ensures !old(Live()) ==> system == old(system) && sounds == old(sounds) && trace == old(trace)
      ensures old(Live()) && ok ==>
        system == old(system) && sounds == old(sounds) && trace == old(trace) + [SystemUpdate(system)]
      ensures old(Live()) && !ok ==>
        !Live() && sounds == [] &&
        trace == old(trace) + [SystemUpdate(old(system))] +
                 ShutdownCalls(old(system), channelGroups[..], SoundHandles(old(sounds)))
    {
      if system != Null {
        trace := trace + [SystemUpdate(system)];
        if !ok {
          Shutdown();
          return;
        }
      }
    }

    /** CP_Sound_Shutdown: when live, stop every group, release every cached
        sound, free the cache, release the system; otherwise nothing. */
    method Shutdown()
      requires Valid()
      modifies this`system, this`sounds, this`trace
      ensures Valid()
      ensures !old(Live()) ==> system == old(system) && sounds == old(sounds) && trace == old(trace)
      ensures old(Live()) ==>
        !Live() && sounds == [] &&
        trace == old(trace) + ShutdownCalls(old(system), channelGroups[..], SoundHandles(old(sounds)))
    {
      if system != Null {
        StopAll();
        IssueEach(Release, SoundHandles(sounds));
        sounds := [];
        trace := trace + [SystemRelease(system)];
        system := Null;
      }
    }

    // -------------------------------------------------------------------
    // Sound cache
    // -------------------------------------------------------------------

    /** CP_CheckIfSoundIsLoaded: a linear search of the cache by path. */
    method CheckIfSoundIsLoaded(filepath: string) returns (snd: Sound?)
      ensures snd != null ==> snd in sounds && snd.filepath == filepath
      ensures snd == null ==> forall s :: s in sounds ==> s.filepath != filepath
    {
      var i := 0;
      while i < |sounds|
        invariant 0 <= i <= |sounds|
        invariant forall k :: 0 <= k < i ==> sounds[k].filepath != filepath
      {
        if sounds[i].filepath == filepath {
          return sounds[i];
        }
        i := i + 1;
      }
      return null;
    }

    /** What CP_Sound_LoadInternal does: a NULL path gives NULL; a cached
        path gives its record and no backend call; otherwise, if the record
        can be allocated, one create call, and on success a new record at the
        end of the cache holding the path and the new handle. */
    twostate predicate LoadOutcome(filepath: Option<string>, streamFromDisc: bool, allocOk: bool,
                                   create: Reply, new sound: Sound?)
      reads this`sounds, this`trace, this`system
    {
      match filepath
      case None => sound == null && sounds == old(sounds) && trace == old(trace)
      case Some(path) =>
        if old(Cached(path)) then
          sound != null && sound in old(sounds) && sound.filepath == path &&
          sounds == old(sounds) && trace == old(trace)
        else if !allocOk then
          sound == null && sounds == old(sounds) && trace == old(trace)
        else
          trace == old(trace) + [CreateCall(old(system), path, streamFromDisc)] &&
          if create.ok then
            sound != null && sound !in old(sounds) && sound.filepath == path && sound.sound == create.handle &&
            sounds == old(sounds) + [sound]
          else
            sound == null && sounds == old(sounds)
    }

    /** CP_Sound_LoadInternal. `allocOk` is whether malloc succeeds and
        `create` the backend's answer to the create call. */
    method LoadInternal(filepath: Option<string>, streamFromDisc: bool, allocOk: bool, create: Reply)
      returns (sound: Sound?)
      requires Valid()
      requires filepath.Some? ==> Live()
      requires filepath.Some? && allocOk && create.ok ==> IsStorablePath(filepath.value)
      modifies this`sounds, this`trace
      ensures Valid()
      ensures LoadOutcome(filepath, streamFromDisc, allocOk, create, sound)
      ensures sound != null && sound !in old(sounds) ==> fresh(sound)
    {
      if filepath.None? {
        return null;
      }
      var path := filepath.value;
      sound := CheckIfSoundIsLoaded(path);
      if sound != null {
        return sound;
      }
      if !allocOk {
        return null;
      }
      if streamFromDisc {
        trace := trace + [SystemCreateStream(system, path)];
      } else {
        trace := trace + [SystemCreateSound(system, path)];
      }
      if !create.ok {
        return null;
      }
      sound := new Sound(path, create.handle);
      sounds := sounds + [sound];
    }

    /** CP_Sound_Load: LoadInternal without streaming. */
    method Load(filepath: Option<string>, allocOk: bool, create: Reply) returns (sound: Sound?)
      requires Valid()
      requires filepath.Some? ==> Live()
      requires filepath.Some? && allocOk && create.ok ==> IsStorablePath(filepath.value)
      modifies this`sounds, this`trace
      ensures Valid()
      ensures LoadOutcome(filepath, false, allocOk, create, sound)
      ensures sound != null && sound !in old(sounds) ==> fresh(sound)
    {
      sound := LoadInternal(filepath, false, allocOk, create);
    }

    /** CP_Sound_LoadMusic: LoadInternal streaming from disk. */
    method LoadMusic(filepath: Option<string>, allocOk: bool, create: Reply) returns (sound: Sound?)
      requires Valid()
      requires filepath.Some? ==> Live()
      requires filepath.Some? && allocOk && create.ok ==> IsStorablePath(filepath.value)
      modifies this`sounds, this`trace
      ensures Valid()
      ensures LoadOutcome(filepath, true, allocOk, create, sound)
      ensures sound != null && sound !in old(sounds) ==> fresh(sound)
    {
      sound := LoadInternal(filepath, true, allocOk, create);
    }

    /** CP_Sound_Free: remove the caller's record from the cache by identity,
        release its backend sound and null the caller's variable. A NULL
        reference, a NULL sound, or a sound not in the cache changes nothing. */
    method Free(ref: SoundRef?)
      requires Valid()
      requires ref != null && ref.sound != null ==> Live()
      modifies this`sounds, this`trace, ref
      ensures Valid()
      ensures ref == null || old(ref.sound) !in old(sounds) ==>
        sounds == old(sounds) && trace == old(trace) && (ref != null ==> ref.sound == old(ref.sound))
      ensures ref != null && old(ref.sound) in old(sounds) ==>
        ref.sound == null && old(ref.sound) !in sounds &&
        multiset(sounds) == multiset(old(sounds)) - multiset{old(ref.sound)} &&
        trace == old(trace) + [SoundRelease(old(ref.sound).sound)]
    {
      if ref == null || ref.sound == null {
        return;
      }
      var target := ref.sound;
      var i := 0;
      while i < |sounds|
        invariant 0 <= i <= |sounds|
        invariant forall k :: 0 <= k < i ==> sounds[k] != target
        invariant sounds == old(sounds) && trace == old(trace) && ref.sound == target
      {
        if sounds[i] == target {
          ghost var before := sounds;
          assert before == before[..i] + [target] + before[i + 1..];
          DistinctPathsRemove(sounds, i);
          sounds := sounds[..i] + sounds[i + 1..];
          trace := trace + [SoundRelease(target.sound)];
          ref.sound := null;
          forall k | 0 <= k < |sounds| ensures sounds[k] != target {
            var k' := if k < i then k else k + 1;
            assert sounds[k] == before[k'];
            if k' < i {
              assert before[k'].filepath != before[i].filepath;
            } else {
              assert before[i].filepath != before[k'].filepath;
            }
          }
          return;
        }
        i := i + 1;
      }
    }

    // -------------------------------------------------------------------
    // Playback
    // -------------------------------------------------------------------

    /** CP_Sound_PlayAdvanced. `play` is the backend's answer to the play
        call; its handle is the transient channel. */
    method PlayAdvanced(sound: Sound?, volume: real, pitch: real, looping: bool, group: int, play: Reply)
      requires Valid()
      requires IsValidSoundGroup(group) && sound != null ==> Live() && sound in sounds
      modifies this`trace
      ensures trace == old(trace) +
        if IsValidSoundGroup(group) && sound != null
        then PlayCalls(system, sound.sound, channelGroups[group], volume, pitch, looping, play)
        else []
    {
      if !IsValidSoundGroup(group) || sound == null {
        return;
      }
      trace := trace + [SystemPlaySound(system, sound.sound, channelGroups[group], true)];
      if !play.ok {
        return;
      }
      var channel := play.handle;
      ghost var t0 := trace;
      ghost var volumeCalls := if volume != 1.0 then [ChannelSetVolume(channel, NonNegative(volume))] else [];
      ghost var pitchCalls := if pitch != 1.0 then [ChannelSetPitch(channel, NonNegative(pitch))] else [];
      ghost var loopCalls := if looping then [ChannelSetMode(channel, LoopNormal), ChannelSetLoopCount(channel, -1)] else [];
      ghost var unpause := [ChannelSetPaused(channel, false)];
      if volume != 1.0 {
        var v := volume;
        if v < 0.0 {
          v := 0.0;
        }
        trace := trace + [ChannelSetVolume(channel, v)];
      }
      assert trace == t0 + volumeCalls;
      if pitch != 1.0 {
        var p := pitch;
        if p < 0.0 {
          p := 0.0;
        }
        trace := trace + [ChannelSetPitch(channel, p)];
      }
      assert trace == t0 + volumeCalls + pitchCalls;
      if looping {
        trace := trace + [ChannelSetMode(channel, LoopNormal)];
        trace := trace + [ChannelSetLoopCount(channel, -1)];
      }
      assert trace == t0 + volumeCalls + pitchCalls + loopCalls;
      trace := trace + [ChannelSetPaused(channel, false)];
      AppendAssoc(t0, volumeCalls + pitchCalls + loopCalls, unpause);
      AppendAssoc(t0, volumeCalls + pitchCalls, loopCalls);
      AppendAssoc(t0, volumeCalls, pitchCalls);
      AppendAssoc(old(trace), [SystemPlaySound(system, sound.sound, channelGroups[group], true)],
                  volumeCalls + pitchCalls + loopCalls + unpause);
    }

    /** CP_Sound_Play: play once in the SFX group with volume and pitch 1,
        so only the play and the unpause are issued. */
    method Play(sound: Sound?, play: Reply)
      requires Valid()
      requires sound != null ==> Live() && sound in sounds
      modifies this`trace
      ensures trace == old(trace) +
        if sound == null then []
        else [SystemPlaySound(system, sound.sound, channelGroups[SFX], true)] +
             (if play.ok then [ChannelSetPaused(play.handle, false)] else [])
    {
      PlayAdvanced(sound, 1.0, 1.0, false, SFX, play);
      if sound != null {
        PlayDefaultsIssueNoSetters(system, sound.sound, channelGroups[SFX], false, play);
      }
    }

    /** CP_Sound_PlayMusic: play looping in the MUSIC group with volume and
        pitch 1. */
    method PlayMusic(sound: Sound?, play: Reply)
      requires Valid()
      requires sound != null ==> Live() && sound in sounds
      modifies this`trace
      ensures trace == old(trace) +
        if sound == null then []
        else [SystemPlaySound(system, sound.sound, channelGroups[MUSIC], true)] +
             (if play.ok then [ChannelSetMode(play.handle, LoopNormal), ChannelSetLoopCount(play.handle, -1),
                               ChannelSetPaused(play.handle, false)]
              else [])
    {
      PlayAdvanced(sound, 1.0, 1.0, true, MUSIC, play);
      if sound != null {
        PlayDefaultsIssueNoSetters(system, sound.sound, channelGroups[MUSIC], true, play);
      }
    }

    // -------------------------------------------------------------------
    // Channel groups
    // -------------------------------------------------------------------

    /** A loop issuing `op` on each handle of `hs` in order, ignoring every
        status. */
    method IssueEach(op: HandleOp, hs: seq<Handle>)
      modifies this`trace
      ensures trace == old(trace) + Each(op, hs)
    {
      var i := 0;
      while i < |hs|
        invariant 0 <= i <= |hs|
        invariant trace == old(trace) + Each(op, hs[..i])
      {
        EachStep(op, hs, i);
        AppendAssoc(old(trace), Each(op, hs[..i]), [op.On(hs[i])]);
        trace := trace + [op.On(hs[i])];
        i := i + 1;
      }
      assert hs[..|hs|] == hs;
    }

    /** CP_Sound_PauseAll: pause every group, in index order. */
    method PauseAll()
      modifies this`trace
      ensures trace == old(trace) + Each(Pause, channelGroups[..])
    {
      IssueEach(Pause, channelGroups[..]);
    }

    /** CP_Sound_ResumeAll: unpause every group, in index order. */
    method ResumeAll()
      modifies this`trace
      ensures trace == old(trace) + Each(Resume, channelGroups[..])
    {
      IssueEach(Resume, channelGroups[..]);
    }

    /** CP_Sound_StopAll: stop every group, in index order. */
    method StopAll()
      modifies this`trace
      ensures trace == old(trace) + Each(Stop, channelGroups[..])
    {
      IssueEach(Stop, channelGroups[..]);
    }

    /** CP_Sound_PauseGroup. */
    method PauseGroup(group: int)
      requires Valid()
      modifies this`trace
      ensures trace == old(trace) +
        if IsValidSoundGroup(group) then [ChannelGroupSetPaused(channelGroups[group], true)] else []
    {
      if IsValidSoundGroup(group) {
        trace := trace + [ChannelGroupSetPaused(channelGroups[group], true)];
      }
    }

    /** CP_Sound_ResumeGroup. */
    method ResumeGroup(group: int)
      requires Valid()
      modifies this`trace
      ensures trace == old(trace) +
        if IsValidSoundGroup(group) then [ChannelGroupSetPaused(channelGroups[group], false)] else []
    {
      if IsValidSoundGroup(group) {
        trace := trace + [ChannelGroupSetPaused(channelGroups[group], false)];
      }
    }

    /** CP_Sound_StopGroup. */
    method StopGroup(group: int)
      requires Valid()
      modifies this`trace
      ensures trace == old(trace) +
        if IsValidSoundGroup(group) then [ChannelGroupStop(channelGroups[group])] else []
    {
      if IsValidSoundGroup(group) {
        trace := trace + [ChannelGroupStop(channelGroups[group])];
      }
    }

    /** CP_Sound_SetGroupVolume: the volume is passed on unclamped. */
    method SetGroupVolume(group: int, volume: real)
      requires Valid()
      modifies this`trace
      ensures trace == old(trace) +
        if IsValidSoundGroup(group) then [ChannelGroupSetVolume(channelGroups[group], volume)] else []
    {
      if IsValidSoundGroup(group) {
        trace := trace + [ChannelGroupSetVolume(channelGroups[group], volume)];
      }
    }

    /** CP_Sound_GetGroupVolume. `reading` is what the backend reports;
        an invalid group reads 0 without a backend call. */
    method GetGroupVolume(group: int, reading: real) returns (volume: real)
      requires Valid()
      modifies this`trace
      ensures IsValidSoundGroup(group) ==>
        volume == reading && trace == old(trace) + [ChannelGroupGetVolume(channelGroups[group])]
      ensures !IsValidSoundGroup(group) ==> volume == 0.0 && trace == old(trace)
    {
      volume := 0.0;
      if IsValidSoundGroup(group) {
        trace := trace + [ChannelGroupGetVolume(channelGroups[group])];
        volume := reading;
      }
    }

    /** CP_Sound_SetGroupPitch: the pitch is passed on unclamped. */
    method SetGroupPitch(group: int, pitch: real)
      requires Valid()
      modifies this`trace
      ensures trace == old(trace) +
        if IsValidSoundGroup(group) then [ChannelGroupSetPitch(channelGroups[group], pitch)] else []
    {
      if IsValidSoundGroup(group) {
        trace := trace + [ChannelGroupSetPitch(channelGroups[group], pitch)];
      }
    }

    /** CP_Sound_GetGroupPitch. `reading` is what the backend reports;
        an invalid group reads 0 without a backend call. */
    method GetGroupPitch(group: int, reading: real) returns (pitch: real)
      requires Valid()
      modifies this`trace
      ensures IsValidSoundGroup(group) ==>
        pitch == reading && trace == old(trace) + [ChannelGroupGetPitch(channelGroups[group])]
      ensures !IsValidSoundGroup(group) ==> pitch == 0.0 && trace == old(trace)
    {
      pitch := 0.0;
      if IsValidSoundGroup(group) {
        trace := trace + [ChannelGroupGetPitch(channelGroups[group])];
        pitch := reading;
      }
    }

    // -------------------------------------------------------------------
    // DSP effects
    // -------------------------------------------------------------------

    /** CP_Sound_SetGroupDSP: add the slot's one shared DSP object at the
        head of the group's chain and activate it, both statuses ignored. */
    method SetGroupDSP(group: int, dspType: nat)
      requires Valid() && (IsValidSoundGroup(group) ==> dspType < DSP_MAX)
      modifies this`trace
      ensures trace == old(trace) +
        if IsValidSoundGroup(group)
        then [ChannelGroupAddDSP(channelGroups[group], 0, dspList[dspType].dsp),
              DSPSetActive(dspList[dspType].dsp, true)]
        else []
    {
      if IsValidSoundGroup(group) {
        trace := trace + [ChannelGroupAddDSP(channelGroups[group], 0, dspList[dspType].dsp)];
        trace := trace + [DSPSetActive(dspList[dspType].dsp, true)];
      }
    }

    /** CP_Sound_ClearGroupDSP: remove every slot's DSP from the group, one
        call per slot in slot order, ignoring every status. */
    method ClearGroupDSP(group: int)
      requires Valid()
      modifies this`trace
      ensures trace == old(trace) +
        if IsValidSoundGroup(group) then Each(RemoveDspFrom(channelGroups[group]), SlotHandles(dspList[..])) else []
    {
      if IsValidSoundGroup(group) {
        IssueEach(RemoveDspFrom(channelGroups[group]), SlotHandles(dspList[..]));
      }
    }

    /** CP_Sound_RemoveGroupDSP. */
    method RemoveGroupDSP(group: int, dsp: nat)
      requires Valid() && (IsValidSoundGroup(group) ==> dsp < DSP_MAX)
      modifies this`trace
      ensures trace == old(trace) +
        if IsValidSoundGroup(group) then [ChannelGroupRemoveDSP(channelGroups[group], dspList[dsp].dsp)] else []
    {
      if IsValidSoundGroup(group) {
        trace := trace + [ChannelGroupRemoveDSP(channelGroups[group], dspList[dsp].dsp)];
      }
    }

    /** CP_Sound_DSP_MapParameter: overwrite one mapping of one slot; no
        backend call. */
    method MapParameter(dsp: nat, param: nat, index: int, min: real, max: real)
      requires Valid() && dsp < DSP_MAX && param < 2
      modifies dspList
      ensures dspList[dsp].dsp == old(dspList[dsp].dsp)
      ensures dspList[dsp].param[param] == ParamMap(index, min, max)
      ensures dspList[dsp].param[1 - param] == old(dspList[dsp].param[1 - param])
      ensures forall d :: 0 <= d < DSP_MAX && d != dsp ==> dspList[d] == old(dspList[d])
    {
      dspList[dsp] := dspList[dsp].(param := dspList[dsp].param[param := ParamMap(index, min, max)]);
    }

    /** CP_Sound_SetDSPParameter: an unused mapping issues nothing; a used
        one sends the remapped value to its native index. */
    method SetDSPParameter(dsp: nat, parameter: nat, value: real)
      requires Valid() && dsp < DSP_MAX && parameter < 2
      modifies this`trace
      ensures var m := dspList[dsp].param[parameter];
        trace == old(trace) +
          if m.index != PARAM_NOTUSED then [DSPSetParameterFloat(dspList[dsp].dsp, m.index, Remap(m, value))]
          else []
    {
      var m := dspList[dsp].param[parameter];
      if m.index != PARAM_NOTUSED {
        trace := trace + [DSPSetParameterFloat(dspList[dsp].dsp, m.index, Remap(m, value))];
      }
    }

    /** CP_Sound_ResetDSP. */
    method ResetDSP(dsp: nat)
      requires Valid() && dsp < DSP_MAX
      modifies this`trace
      ensures trace == old(trace) + [DSPReset(dspList[dsp].dsp)]
    {
      trace := trace + [DSPReset(dspList[dsp].dsp)];
    }

    /** CP_Sound_ResetAllDSPs: reset the slots in order, stopping after the
        first failing reset. `outcomes` are the backend's statuses. */
    method ResetAllDSPs(outcomes: seq<bool>)
      requires Valid() && |outcomes| == DSP_MAX
      modifies this`trace
      ensures trace == old(trace) + Each(Reset, SlotHandles(dspList[..])[..Attempts(outcomes)])
    {
      ghost var hs := SlotHandles(dspList[..]);
      var d := 0;
      while d < DSP_MAX
        invariant d <= FirstFalse(outcomes)
        invariant trace == old(trace) + Each(Reset, hs[..d])
      {
        EachStep(Reset, hs, d);
        AppendAssoc(old(trace), Each(Reset, hs[..d]), [DSPReset(dspList[d].dsp)]);
        trace := trace + [DSPReset(dspList[d].dsp)];
        AttemptStep(outcomes, d);
        if !outcomes[d] {
          assert hs == SlotHandles(dspList[..]);
          return;
        }
        d := d + 1;
      }
      AttemptStep(outcomes, d);
      assert hs == SlotHandles(dspList[..]);
    }
  }
}
