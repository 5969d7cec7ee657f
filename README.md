# CProcessing sound module, modelled in Dafny

This project models the sound module of CProcessing (`CP_Sound.c` with the
records of `Internal_Sound.h`). The module sits between a game and the FMOD
audio backend. It holds four pieces of module-level state:

- the backend system handle (`_fmod_system`): the module is *live* while it
  is not NULL;
- a cache of loaded sounds (`sound_vector`), one record per path, holding
  the path and the backend sound;
- a table of channel groups (`channel_groups`), one per sound group;
- an effect table (`dsp_list`), one DSP object per effect slot, each slot
  with two mappings from a normalised parameter in [0, 1] to a native FMOD
  parameter index and range.

FMOD itself is opaque. Every backend call the module makes is appended to
a trace, `SoundSystem.trace : seq<Call>`. The backend's answers are
parameters of the operations: a `Reply(ok, handle)` for calls that create
something, a `bool` for calls whose status the code inspects. Calls whose
status the code ignores take no answer. Every operation is then specified
by the exact trace it appends and by the new module state.

Files:

- `fmod.dfy` (module `Fmod`): handles, replies, the backend calls, and
  `Each`, the calls of a loop that applies one operation to a list of
  handles.
- `internal_sound.dfy` (module `InternalSound`): the sound record (a class,
  since a `CP_Sound` is compared by pointer), the parameter mapping and the
  DSP slot.
- `cp_sound_spec.dfy` (module `SoundSpec`): constants, the default effect
  table, the remapping of effect parameters, the stop-at-first-failure loop
  count, and the call sequences of Play, Shutdown and Init, with the
  properties proved about them.
- `cp_sound.dfy` (module `CPSound`): the class `SoundSystem`, with one
  method per public or lifecycle function of `CP_Sound.c` and a predicate
  for the group guard `CP_IsValidSoundGroup`; `channel_groups` and
  `dsp_list` are arrays written in place. Init, Shutdown, Update, the play
  operations, the fan-out loops and ResetAllDSPs are proved against the
  call sequences and tables of `SoundSpec`; the cache search, Load, Free,
  MapParameter and the single-group operations state their result and new
  state directly in their contracts.
- `scenarios.dfy` (module `Scenarios`): client call sequences showing the
  properties that span several operations.

Points where the code behaves differently from what its comments or a
reader might expect; the model follows the code:

- `CP_Sound_Free` of a sound that is not in the cache does nothing and
  reports nothing; the caller's variable keeps its value.
- When Init fails after `FMOD_System_Init` succeeded, it calls
  `CP_Sound_Shutdown`, which stops every entry of the channel-group table
  (including entries the failed loop never created) and releases the
  system. The created groups and effects are not released one by one.
- When `FMOD_System_Init` fails, the created system is set to NULL without
  being released.
- `CP_Sound_ResetAllDSPs` stops at the first failing reset, while
  `CP_Sound_PauseAll`, `ResumeAll`, `StopAll` and `ClearGroupDSP` ignore
  every status.

## Model

| member | source | states |
|---|---|---|
| Fmod.Each | Processing_Sample/CProcessing/Source/CP_Sound.c:432-442 | a fan-out loop issues exactly one call per handle, the i-th call on the i-th handle |
| InternalSound.Sound.constructor | Processing_Sample/CProcessing/Source/Internal_Sound.h:35-39 | a record is exactly a path that fits the MAX_PATH buffer plus one backend sound handle |
| SoundSpec.DefaultMappingsShape | Processing_Sample/CProcessing/Source/CP_Sound.c:101-179 | in Init's effect table, exactly the second parameters of distortion and pitch shift are unused (-1), and every used mapping has min < max |
| SoundSpec.Remap | Processing_Sample/CProcessing/Source/CP_Sound.c:678-681 | the native value for a normalised 0 is the mapping's min and for 1 its max |
| SoundSpec.RemapNormalize | Processing_Sample/CProcessing/Source/CP_Sound.c:678-681 | on a non-empty range, normalising a remapped value gives back the value |
| SoundSpec.NormalizeRemap | Processing_Sample/CProcessing/Source/CP_Sound.c:678-681 | on a non-empty range, every native value is the remap of its normalised form |
| SoundSpec.RemapMonotone | Processing_Sample/CProcessing/Source/CP_Sound.c:678-681 | on an increasing range the remap is strictly increasing |
| SoundSpec.RemapWithinRange | Processing_Sample/CProcessing/Source/CP_Sound.c:678-681 | a normalised value in [0, 1] lands in [min, max] |
| SoundSpec.RemapUnclamped | Processing_Sample/CProcessing/Source/CP_Sound.c:674-688 | the value is not clamped: above 1 lands above max, below 0 lands below min |
| SoundSpec.LowpassCutoffHalfway | Processing_Sample/CProcessing/Source/CP_Sound.c:108 | a normalised 0.5 on the lowpass cutoff mapping [1, 22000] is 11000.5 |
| SoundSpec.FirstFalse | Processing_Sample/CProcessing/Source/CP_Sound.c:88-91 | the position of the first failure: everything before succeeded, and it failed (or it is the length) |
| SoundSpec.Attempts | Processing_Sample/CProcessing/Source/CP_Sound.c:88-91 | a loop that stops after the first failing call makes at most one call per entry, every call but the last succeeded, it ends early only on a failure, and makes all calls when none fails |
| SoundSpec.FirstFalseUnique | Processing_Sample/CProcessing/Source/CP_Sound.c:88-91 | the first failure is the only position with all successes before and a failure at it |
| SoundSpec.AttemptStep | Processing_Sample/CProcessing/Source/CP_Sound.c:710-717 | one step of a stop-at-first-failure loop: a success lets it continue, a failure at d makes d + 1 attempts, finishing means all attempts were made |
| SoundSpec.PlayStartsPausedEndsUnpaused | Processing_Sample/CProcessing/Source/CP_Sound.c:385-426 | the sound is first played paused into the group; a failed play is the only call; a successful one ends with unpausing the channel and nothing earlier unpauses |
| SoundSpec.PlayVolumeAndPitch | Processing_Sample/CProcessing/Source/CP_Sound.c:394-410 | a volume call is issued iff the play succeeded and volume is not 1, with the volume raised to at least 0; likewise for pitch |
| SoundSpec.PlayLooping | Processing_Sample/CProcessing/Source/CP_Sound.c:414-420 | the loop mode is set iff the play succeeded and looping is requested, and is immediately followed by an infinite loop count |
| SoundSpec.PlayDefaultsIssueNoSetters | Processing_Sample/CProcessing/Source/CP_Sound.c:345-361 | with volume and pitch 1, only the play, the loop calls when looping, and the unpause are issued |
| SoundSpec.DspKind | Processing_Sample/CProcessing/Source/CP_Sound.c:101-171 | the backend effect type Init creates for each of the eight slots, in table order |
| SoundSpec.DefaultMapping | Processing_Sample/CProcessing/Source/CP_Sound.c:108-179 | the two (index, min, max) mappings Init writes into each slot |
| SoundSpec.EffectTableAllOk | Processing_Sample/CProcessing/Source/CP_Sound.c:101-179 | when every effect creation succeeds, the table after Init is every slot's DSP with its default mappings |
| SoundSpec.EffectTableAtFailure | Processing_Sample/CProcessing/Source/CP_Sound.c:101-107 | when creation k is the first to fail, the slots below k are configured, slot k holds the written handle with its old mappings, and the slots above k are untouched |
| SoundSpec.ShutdownOrder | Processing_Sample/CProcessing/Source/CP_Sound.c:198-222 | shutdown stops each group once in index order, then releases each cached sound once in cache order, then releases the system last |
| SoundSpec.InitReleaseOnlyAfterSystemInit | Processing_Sample/CProcessing/Source/CP_Sound.c:63-180 | Init releases the system iff create and init succeeded and a later creation failed; on success it creates one group per table entry and one effect per slot, in order |
| CPSound.DistinctPathsRemove | Processing_Sample/CProcessing/Source/CP_Sound.c:322-334 | removing a record from a cache with distinct paths leaves the paths distinct |
| CPSound.SoundRef.constructor | Processing_Sample/CProcessing/Source/CP_Sound.c:314 | the caller's CP_Sound variable whose address Free takes, holding the given sound |
| CPSound.SoundSystem.IsValidSoundGroup | Processing_Sample/CProcessing/Source/CP_Sound.c:44-47 | a group is valid iff 0 <= group < CP_SOUND_GROUP_MAX |
| CPSound.SoundSystem.constructor | Processing_Sample/CProcessing/Source/CP_Sound.c:30-38 | before Init: no system, an empty cache, NULL channel groups and zeroed effect slots |
| CPSound.SoundSystem.Init | Processing_Sample/CProcessing/Source/CP_Sound.c:63-180 | the trace gains exactly InitCalls; the module is live iff every backend call succeeded, and then the group table holds the created groups and every slot the created DSP with its default mappings; a failed create or init leaves both tables as they were; otherwise the group table holds the attempted replies' handles, and the effect table is untouched after a failed group creation and is EffectTable after the effect creations |
| CPSound.SoundSystem.Open | Processing_Sample/CProcessing/Source/CP_Sound.c:63-86 | create then initialise the system; either failure leaves it NULL with no release |
| CPSound.SoundSystem.Setup | Processing_Sample/CProcessing/Source/CP_Sound.c:88-179 | group creation, then effect creation, with a shutdown after the first failure; live iff all succeeded; the group table holds the attempted replies' handles, and the effect table is EffectTable when all groups were created and untouched otherwise |
| CPSound.SoundSystem.CreateGroups | Processing_Sample/CProcessing/Source/CP_Sound.c:88-91 | creates groups in order until the first failure, storing each reply's handle in the table |
| CPSound.SoundSystem.CreateEffects | Processing_Sample/CProcessing/Source/CP_Sound.c:99-179 | creates the eight effects in slot order until the first failure; the table becomes EffectTable of the old table, so on success every slot holds its DSP and default mappings |
| CPSound.SoundSystem.CreateEffect | Processing_Sample/CProcessing/Source/CP_Sound.c:101-109 | one slot: create the DSP of the slot's type and store the handle; on success write both mappings, on failure leave the table as EffectTable (no other slot touched, the slot's mappings kept) |
| CPSound.SoundSystem.Update | Processing_Sample/CProcessing/Source/CP_Sound.c:182-196 | nothing when not live; one update call when live; a failed update is followed by a full shutdown |
| CPSound.SoundSystem.Shutdown | Processing_Sample/CProcessing/Source/CP_Sound.c:198-222 | nothing when not live; otherwise the ShutdownCalls trace, an empty cache and not live |
| CPSound.SoundSystem.CheckIfSoundIsLoaded | Processing_Sample/CProcessing/Source/CP_Sound.c:49-61 | returns a cached record with the path, or NULL exactly when no cached record has it |
| CPSound.SoundSystem.LoadInternal | Processing_Sample/CProcessing/Source/CP_Sound.c:224-270 | NULL path gives NULL and no change; a cached path gives that record and no call; otherwise one create call and, only on success, a new record appended holding the path and handle; paths stay distinct |
| CPSound.SoundSystem.Load | Processing_Sample/CProcessing/Source/CP_Sound.c:291-294 | LoadInternal with the sound created in memory |
| CPSound.SoundSystem.LoadMusic | Processing_Sample/CProcessing/Source/CP_Sound.c:304-307 | LoadInternal with the sound streamed from disk |
| CPSound.SoundSystem.Free | Processing_Sample/CProcessing/Source/CP_Sound.c:314-339 | NULL or uncached: no change; cached: exactly that record leaves the cache, its handle is released once and the caller's variable becomes NULL |
| CPSound.SoundSystem.PlayAdvanced | Processing_Sample/CProcessing/Source/CP_Sound.c:374-427 | no call for an invalid group or NULL sound; otherwise exactly PlayCalls on the group's channel group |
| CPSound.SoundSystem.Play | Processing_Sample/CProcessing/Source/CP_Sound.c:345-348 | plays in the SFX group issuing only the play and, if it succeeded, the unpause |
| CPSound.SoundSystem.PlayMusic | Processing_Sample/CProcessing/Source/CP_Sound.c:358-361 | plays in the MUSIC group issuing the play and, if it succeeded, loop mode, infinite loop count and unpause |
| CPSound.SoundSystem.IssueEach | Processing_Sample/CProcessing/Source/CP_Sound.c:434-441 | a loop issuing one call per handle in list order, ignoring every status: the trace gains exactly Each of the list |
| CPSound.SoundSystem.PauseAll | Processing_Sample/CProcessing/Source/CP_Sound.c:432-442 | one pause per group in index order |
| CPSound.SoundSystem.ResumeAll | Processing_Sample/CProcessing/Source/CP_Sound.c:464-474 | one unpause per group in index order |
| CPSound.SoundSystem.StopAll | Processing_Sample/CProcessing/Source/CP_Sound.c:496-506 | one stop per group in index order |
| CPSound.SoundSystem.PauseGroup | Processing_Sample/CProcessing/Source/CP_Sound.c:449-459 | one pause of that group when valid, nothing otherwise |
| CPSound.SoundSystem.ResumeGroup | Processing_Sample/CProcessing/Source/CP_Sound.c:481-491 | one unpause of that group when valid, nothing otherwise |
| CPSound.SoundSystem.StopGroup | Processing_Sample/CProcessing/Source/CP_Sound.c:514-524 | one stop of that group when valid, nothing otherwise |
| CPSound.SoundSystem.SetGroupVolume | Processing_Sample/CProcessing/Source/CP_Sound.c:533-543 | the unclamped volume set on that group when valid, nothing otherwise |
| CPSound.SoundSystem.GetGroupVolume | Processing_Sample/CProcessing/Source/CP_Sound.c:552-564 | the backend's reading for a valid group; 0 and no call for an invalid one |
| CPSound.SoundSystem.SetGroupPitch | Processing_Sample/CProcessing/Source/CP_Sound.c:573-583 | the unclamped pitch set on that group when valid, nothing otherwise |
| CPSound.SoundSystem.GetGroupPitch | Processing_Sample/CProcessing/Source/CP_Sound.c:592-604 | the backend's reading for a valid group; 0 and no call for an invalid one |
| CPSound.SoundSystem.SetGroupDSP | Processing_Sample/CProcessing/Source/CP_Sound.c:612-627 | for a valid group, the slot's one shared DSP is added at position 0 and activated; nothing otherwise |
| CPSound.SoundSystem.ClearGroupDSP | Processing_Sample/CProcessing/Source/CP_Sound.c:634-647 | for a valid group, one removal per slot in slot order; nothing otherwise |
| CPSound.SoundSystem.RemoveGroupDSP | Processing_Sample/CProcessing/Source/CP_Sound.c:655-665 | for a valid group, one removal of that slot's DSP; nothing otherwise |
| CPSound.SoundSystem.MapParameter | Processing_Sample/CProcessing/Source/CP_Sound.c:272-277 | only the one mapping of the one slot changes, to the given index and range |
| CPSound.SoundSystem.SetDSPParameter | Processing_Sample/CProcessing/Source/CP_Sound.c:674-688 | no call for an unused mapping; otherwise one float parameter call at the native index with the remapped value |
| CPSound.SoundSystem.ResetDSP | Processing_Sample/CProcessing/Source/CP_Sound.c:695-703 | one reset of the slot's DSP |
| CPSound.SoundSystem.ResetAllDSPs | Processing_Sample/CProcessing/Source/CP_Sound.c:708-719 | resets the slots in order, stopping after the first failing reset |
| Scenarios.LoadTwiceCreatesOnce | Processing_Sample/CProcessing/Source/CP_Sound.c:231-236 | loading a new path twice creates one backend sound and returns the same record both times |
| Scenarios.FreeTwiceReleasesOnce | Processing_Sample/CProcessing/Source/CP_Sound.c:316-334 | freeing a cached sound twice releases it once |
| Scenarios.ShutdownTwice | Processing_Sample/CProcessing/Source/CP_Sound.c:198-222 | a second shutdown issues nothing |
| Scenarios.LowpassCutoffHalfwayThroughTable | Processing_Sample/CProcessing/Source/CP_Sound.c:674-688 | mapping the lowpass cutoff to [1, 22000] and setting it to 0.5 sends 11000.5 to native parameter 0 of the lowpass DSP |

## Left out

- FMOD internals (decoding, mixing, effect processing, channel behaviour) are foreign code: each call is a trace entry, and its answer is a parameter.
- Floating point: volumes, pitches, ranges and parameter values are `real`; rounding and NaN comparisons are not modelled.
- The `vect` container of `vect.h` is not part of this model: the cache is a `seq`, without capacity or growth; allocating and freeing the vector itself is not traced.
- `malloc` and `free` of sound records are not traced; a failed `malloc` is the `allocOk` parameter of the load operations.
- The `printf` in Init and the module-global `result` status variable are left out (output and a scratch variable).
- The initial capacity (12), the channel count's meaning and the init flags are configuration passed to other code; the channel count appears only as the argument of the init call.
- CPSound.SoundSystem.LoadInternal, Free and PlayAdvanced: use after a shutdown or a failed Init (reading the freed vector, playing on a NULL system) is excluded by a precondition that the module is live, rather than given behaviour the code does not define.
- CPSound.SoundSystem.LoadInternal: on the path that stores a new record (allocation and backend creation both succeed), a path of MAX_PATH characters or more, or with an embedded NUL, is excluded by precondition; `strcpy_s` would fail on it. The other paths accept any path.
- CPSound.SoundSystem.Free: `vect_rem` may reorder the remaining records; the contract states the new cache as a multiset, not its order.
- SetGroupDSP, RemoveGroupDSP, MapParameter, SetDSPParameter and ResetDSP index the effect table without checking; the model requires an index in range wherever the code indexes it (for SetGroupDSP and RemoveGroupDSP, only for a valid group).
- CPSound.SoundSystem.PlayAdvanced, Play and PlayMusic: a record that Free or Shutdown has freed is no longer a valid CP_Sound, and reading its handle reads freed memory; the model requires the record to be in the cache rather than giving that read a behaviour.
- The backend is taken to hand back a non-NULL system when `FMOD_System_Create` succeeds.
- CP_SOUND_GROUP_MAX is a constructor parameter of at least 2; SFX is group 0 and MUSIC group 1; the effect enum follows Init's order (lowpass, reverb, echo, distortion, flange, tremolo, chorus, pitch shift). `cprocessing.h`, which declares these, is not part of this model.
- Init creates a fresh cache each time it runs; a second Init leaking the previous vector is not modelled.
