# shaderpatch effects control and data, in Dafny

This project models the control and data logic of shaderpatch's Direct3D 11
effect stack: the parts of the patch that decide what the effects do each
frame and how their settings are stored, rather than the shaders themselves.

- **Debug visualizer.** It has a mode automaton driven by two hotkeys, with
  edge detection on polled key states, a toggle that remembers the last
  active mode and a cycle through the modes. It keeps a lazily filled cache
  of 256 depth-stencil states that pass on stencil EQUAL, and it turns each
  mode into full-screen passes, including one stencil pass per reference
  value, coloured from a palette.
- **Depth linearisation.** This is the pass that converts hardware depth
  into linear depth from the projection's near and far terms.
- **Effects control.** This is the top-level switch for the effects and the
  loading of the effects configuration. It includes the codecs that read and
  write every effect's parameters from and to YAML nodes, with their
  defaults, their clamping and the keys that older files used.
- **Post-processing parameters.** These cover bloom, colour grading, the sky
  parameters and the fog, including the fog's derived constants and its
  cubemap transform.
- **Full-screen passes.** These are the skybox override, the sky dome, the
  cubemap debug view and the depth/stencil debug view. Each pass is gated on
  its parameters and its inputs, packs a constant buffer, binds its views and
  draws one triangle.
- **Clouds.** This covers the three-layer cloud effect and the fog boost it
  gives the fog pass, the BF3-style particle clouds built from the cloud
  volumes, the instanced cloud volumes and the cloud layers' tileable noise
  textures. Random draws come from a seeded stream of samples in [0, 1).
- **Material dump.** This writes a material's properties as text. The model
  covers its number and string formatting.

Calls into the GPU become events appended to a trace (`Gpu.Event`), and
resources are opaque handles that are either null or live. Claims such as
"one draw, into the output target" or "the view at slot 0 is the ground
cubemap" are stated about that trace. A YAML node is a map from keys to
scalar or vector values. Floating-point values are modelled as reals.
`uint32_t` arithmetic is written out as modular arithmetic on bounded
naturals (`Numeric.Add32`, `Mul32`, `Xor32`), not as `bv32`.

## Model

| member | source | states |
|---|---|---|
| DebugVisualizer.Ordinal | src/core/debug_visualizer.hpp:30-47 | every mode's underlying value is below `_count` (8) |
| DebugVisualizer.FromOrdinal | src/core/debug_visualizer.hpp:30-47 | casting an in-range value to a mode gives the mode with that value |
| DebugVisualizer.OrdinalInjective | src/core/debug_visualizer.hpp:30-47 | no two modes share an underlying value |
| DebugVisualizer.ModeNameInjective | src/core/debug_visualizer.hpp:60-69 | a mode's display name tells the mode: two modes shown under one name are the same mode |
| DebugVisualizer.ModeNamesMatchEnum | src/core/debug_visualizer.hpp:60-75 | the name table has exactly `_count` distinct entries in enum order, from "None" to "Combined"; the sub-mode table has 3 |
| DebugVisualizer.PalettesShape | src/core/debug_visualizer.hpp:81-105 | 9 value colours with index 0 fully transparent and the others at alpha 0.7; 8 bit colours at alpha 0.5 |
| DebugVisualizer.DepthConstantsFor | src/core/debug_visualizer.cpp:257-311 | both linearisation pairs satisfy `mul * add >= 0` with `mul = -proj[3][2]`; visualisation mode 1 exactly for log depth, 2 exactly for raw depth; dual-buffer flag 2 for far-only, 1 for dual, else 0; scalars copied |
| DebugVisualizer.Toggle | src/core/debug_visualizer.cpp:212-225 | toggling yields an active mode exactly when the mode was `none` |
| DebugVisualizer.Cycle | src/core/debug_visualizer.cpp:244-251 | the next mode's value is the current value plus one, wrapping to 0 at `_count` |
| DebugVisualizer.ToggleTwiceRestores | src/core/debug_visualizer.cpp:212-225 | off then on restores the mode that was showing and remembers it |
| DebugVisualizer.ToggleOnFromNone | src/core/debug_visualizer.cpp:213-219 | switching on shows the remembered mode, or linear depth when none is remembered, and leaves the memory alone |
| DebugVisualizer.ToggleFlipsActivity | src/core/debug_visualizer.cpp:212-225 | toggling always flips whether the visualizer is active |
| DebugVisualizer.CycleTimesOrdinal | src/core/debug_visualizer.cpp:244-251 | k cycles add k to the mode's value modulo 8 |
| DebugVisualizer.EightCyclesIdentity | src/core/debug_visualizer.cpp:244-251 | eight cycles from any mode return to that mode |
| DebugVisualizer.DisabledHotkeysFreezeInput | src/core/debug_visualizer.cpp:212 | with both hotkeys 0 no key is polled and an update changes nothing (also line 228) |
| DebugVisualizer.HeldKeyFiresOnce | src/core/debug_visualizer.cpp:233-242 | a key held across two polls fires at most on the first |
| DebugVisualizer.SharedHotkeyOnlyToggles | src/core/debug_visualizer.cpp:209-231 | when both hotkeys are one key, the toggle consumes the edge and the cycle never fires in the same update |
| DebugVisualizer.ToggleAppliesBeforeCycle | src/core/debug_visualizer.cpp:209-231 | two fresh hotkey presses in one update give the cycle of the toggled mode |
| DebugVisualizer.BitmaskReadMask | src/core/debug_visualizer.cpp:145-150 | bitmask state i's read mask `1 << i` has exactly one bit set |
| DebugVisualizer.BitmaskReadMasksDistinct | src/core/debug_visualizer.cpp:145-150 | the eight read masks are pairwise distinct |
| DebugVisualizer.CacheAfter | src/core/debug_visualizer.cpp:522-525 | the value passes leave a cache of the same 256 slots |
| DebugVisualizer.ValuePassesLength | src/core/debug_visualizer.cpp:522-550 | the passes for refs 1..n are three calls per ref |
| DebugVisualizer.ValuePassesDraws | src/core/debug_visualizer.cpp:522-550 | the passes for refs 1..n draw exactly n times; n = 0 draws nothing |
| DebugVisualizer.ValuePassAt | src/core/debug_visualizer.cpp:522-550 | the pass for ref r sits at position 3(r-1) of the passes for refs 1..n, whatever follows |
| DebugVisualizer.ValuePassesShape | src/core/debug_visualizer.cpp:522-550 | one draw per ref 1..n in increasing order, each preceded by the EQUAL state for that ref with stencil reference ref |
| DebugVisualizer.BitmaskPassesShape | src/core/debug_visualizer.cpp:553-567 | exactly 8 draws, bit i drawn with the bitmask state of read mask `1 << i`, reference 0 |
| DebugVisualizer.DepthPassDraws | src/core/debug_visualizer.cpp:380 | the depth pass draws once when the near view and the target are non-null, otherwise not at all (also line 417) |
| DebugVisualizer.StencilPassDraws | src/core/debug_visualizer.cpp:428-496 | the stencil pass draws as many times as its sub-mode's passes when it runs, otherwise zero |
| DebugVisualizer.NoneIssuesNothing | src/core/debug_visualizer.cpp:335 | mode `none` issues no call at all |
| DebugVisualizer.RenderDraws | src/core/debug_visualizer.cpp:335-364 | depth modes draw only the depth pass, stencil modes only the stencil pass, combined both, each skipped when a view it needs is null (also lines 380, 428) |
| DebugVisualizer.MsaaSkipsStandaloneStencil | src/core/debug_visualizer.cpp:434-441 | a standalone stencil mode with a multisampled DSV issues zero draws |
| DebugVisualizer.CombinedIgnoresSampleCount | src/core/debug_visualizer.cpp:353-360 | the combined frame does not depend on the sample count and is the depth pass, then the stencil pass, then the cleanup (also lines 434-441) |
| DebugVisualizer.AsWrittenCountsUp | src/core/debug_visualizer.cpp:524 | the `uint8_t` counter counts 1, 2, 3, ... below 255 |
| DebugVisualizer.AsWrittenWraps | src/core/debug_visualizer.cpp:524 | after ref 255 the `uint8_t` counter wraps to 0 and then to 1 |
| DebugVisualizer.AsWrittenValueLoopNeverExits | src/core/debug_visualizer.cpp:521-524 | with `stencil_max_ref = 255` the counter has period 256 and never exceeds 255, so the loop guard never fails |
| DebugVisualizer.Visualizer.constructor | src/core/debug_visualizer.cpp:16-32 | defaults with the user's hotkeys, depth range, alpha and max ref; mode `none`, last active `depth_linear`; bitmask state i made with mask `1 << i`; every key up, every EQUAL slot empty (also lines 99-165) |
| DebugVisualizer.Visualizer.KeyJustPressed | src/core/debug_visualizer.cpp:233-242 | the rising edge and the recorded key states are those of `KeyStep` |
| DebugVisualizer.Visualizer.CycleMode | src/core/debug_visualizer.cpp:244-251 | the mode becomes its cycle and nothing else in the configuration changes |
| DebugVisualizer.Visualizer.UpdateInput | src/core/debug_visualizer.cpp:209-231 | mode, last active mode and key states move as `UpdateInputSpec` says; the rest of the configuration is unchanged |
| DebugVisualizer.Visualizer.GetStencilEqualState | src/core/debug_visualizer.cpp:182-203 | a state is created only for an empty slot; a stored handle is returned unchanged; a failed creation leaves the slot empty; each ref is created successfully at most once |
| DebugVisualizer.Visualizer.RenderDepth | src/core/debug_visualizer.cpp:372-420 | issues the depth pass, and uploads the depth constants only when the pass runs |
| DebugVisualizer.Visualizer.RenderStencilNonzeroPass | src/core/debug_visualizer.cpp:499-517 | one draw with the always-pass or the not-equal-zero state |
| DebugVisualizer.Visualizer.RenderStencilValuePasses | src/core/debug_visualizer.cpp:519-551 | issues the value passes for refs 1..`stencil_max_ref` and leaves the cache as `CacheAfter`, with the counter widened (see Findings) |
| DebugVisualizer.Visualizer.RenderStencilBitmaskPasses | src/core/debug_visualizer.cpp:553-568 | issues the eight bitmask passes |
| DebugVisualizer.Visualizer.RenderStencil | src/core/debug_visualizer.cpp:422-497 | issues the stencil pass, with the sub-mode chosen by the mode; the cache changes only when the value passes run |
| DebugVisualizer.Visualizer.RenderCombined | src/core/debug_visualizer.cpp:353-360 | the depth pass, then the stencil pass, with both passes' effects on the cache and the depth constants |
| DebugVisualizer.Visualizer.RenderPasses | src/core/debug_visualizer.cpp:337-364 | the mode dispatch: depth modes, stencil modes and combined |
| DebugVisualizer.Visualizer.Render | src/core/debug_visualizer.cpp:322-370 | records the sample count; the frame is the dispatch followed by unbinding two views and the targets, or nothing in `none`; cache and depth constants change only when their pass runs |
| DebugVisualizer.Visualizer.SetBufferSourceInfo | src/core/debug_visualizer.hpp:235-247 | assigns exactly the eight diagnostic fields |
| DebugVisualizer.Visualizer.SetProjectionInfo | src/core/debug_visualizer.hpp:250-254 | assigns exactly the two diagnostic matrices |
| DepthLinearize.Linearize | src/core/debug_visualizer.cpp:269-282 | `mul = -proj[3][2]`, `add = ±proj[2][2]` negated exactly when `mul * add < 0`, and afterwards `mul * add >= 0` |
| DepthLinearize.LinearizeKeepsMagnitude | src/effects/cloud_volume.cpp:245-250 | only the sign of `add` moves: `abs(add) = abs(proj[2][2])` and `abs(mul) = abs(proj[3][2])` |
| DepthLinearize.LinearizeIdempotent | src/effects/cloud_volume.cpp:245-250 | normalising an already normalised pair changes nothing |
| Sampling.Uniform | src/effects/clouds_params.hpp:52-58 | `uniform_real_distribution(a, b)` on a canonical sample lies in `[a, b)` when `a < b`, and is `a` when `a = b` |
| EffectsControl.SceneBlurFollowsBloomSection | src/effects/control.cpp:394-401 | after a document is read, the game may blur the scene exactly when the effects are off or bloom is not blended: when the read returns, the mode decoded from the `Bloom` section (present or not); when the bloom decoder throws, the mode held before the read |
| EffectsControl.Control.constructor | src/effects/control.cpp:343-371 | loads the user configuration when it is switched on, else the automatic one when switched on and its file exists; `has_auto_user_config` set only then; otherwise the effects keep their initial parameters; the open-failure flag is the corrected one, set when the loaded file is missing or reading it throws (see Findings) |
| EffectsControl.Control.ReadConfig | src/effects/control.cpp:526-564 | reports exactly when the bloom decoder throws; the control configuration and the sections are applied as `ConfigEffects` says (after a throw only `Control` and `ColorGrading`), the `Fog`, `CloudLayers`/`CloudLayer` and `CloudVolumes` sections are applied whenever their key is present, whatever its value; the cloud volumes are regenerated once exactly when the `CloudVolumes` key is present and the read returns; the flags are untouched |
| EffectsControl.ControlSectionReplaces | src/effects/control.cpp:528-529 | whatever the control held before, the control configuration is decoded from the `Control` mapping, or from nothing when the document has none, and a throw later in the read does not undo it |
| EffectsControl.Control.LoadParamsFromYamlFile | src/effects/control.cpp:636-661 | reads the document, or an empty one when the file cannot be read, and records a failure exactly when the file cannot be read or `read_config` throws (corrected, see Findings) |
| EffectsControl.Control.SetEnabled | src/effects/control.cpp:373-392 | stores the switch; disabling under a user or automatic configuration reloads it; returns `enabled()`, which is true after enabling and, after disabling, holds exactly under a user or automatic configuration |
| EffectsControl.LegacyCloudLayer | src/effects/control.cpp:554-560 | without a `CloudLayers` key, and when the read gets past bloom, a legacy `CloudLayer` section replaces only layer 0, with its switch from `Enable`, and leaves layers 1-2 and the sun direction alone |
| EffectsControl.ConfigEffectsLayers | src/effects/control.cpp:549-560 | only the two cloud-layer sections decide the cloud-layer buffer and its switch, and a read that throws at bloom leaves both as they were |
| EffectsControl.CloudLayersPreferred | src/effects/control.cpp:549-553 | a `CloudLayers` key wins, whatever its value; whatever `CloudLayer` holds is then ignored |
| EffectsControl.DecodeFogEmpty | src/effects/control.cpp:57-89 | a node without keys decodes to the `cb::Fog` defaults, flags included |
| EffectsControl.DecodeVolumesEmpty | src/effects/control.cpp:253-305 | a node without keys decodes to the `cb::CloudVolumes` defaults |
| EffectsControl.CloudLayersFromEmpty | src/effects/control.cpp:198-216 | a node without keys decodes to the stratus, cumulus and cirrus presets |
| EffectsControl.ListFogResets | src/effects/control.cpp:542-545 | a `Fog` key holding a list still enters its branch: the fog returns to its defaults and is switched off |
| EffectsControl.ListCloudVolumesReset | src/effects/control.cpp:558-563 | a `CloudVolumes` key holding a list resets the volume constants to their defaults, switches the volumes off, and still regenerates them once |
| EffectsControl.ListCloudLayersReset | src/effects/control.cpp:547-551 | a `CloudLayers` key holding a list resets the layers to their presets, switches them off, and hides a legacy `CloudLayer` section |
| EffectsControl.EmptyConfig | src/effects/control.cpp:526-531 | an empty document, which is also what an unreadable file gives, makes `read_config` throw at the bloom tints: only the control configuration (decoded from nothing) and the color grading (back to its defaults) change, and nothing is regenerated |
| EffectsControl.BloomOnlyConfig | src/effects/control.cpp:526-539 | a document holding only a `Bloom` section with its seven tints reads through: every missing post-process section is decoded from nothing rather than taking its fallback (SSAO off in global mode), and fog and clouds keep what they held |
| EffectsControl.ConfigEffectsControl | src/effects/control.cpp:528-529 | the control configuration after a read, returned or thrown, is the one decoded from the `Control` section alone |
| EffectsControl.OpenFailureAsWritten | src/effects/control.cpp:636-661 | as written the flag is false on return whatever failed |
| EffectsControl.OpenFailureCorrected | src/effects/control.cpp:636-661 | as intended the flag is set exactly when the load or the read failed |
| ControlCodecs.Flag | src/effects/control.cpp:73-74 | a boolean stored in a `uint32` is 1 for true and 0 for false |
| ControlCodecs.ListVec3 | src/effects/control.cpp:137-140 | a vector key is overwritten only by a list of at least three numbers, from its first three; a missing key or a shorter list keeps the current value |
| ControlCodecs.ListVec3Encoded | src/effects/control.cpp:104 | a list written from a vector reads back as that vector (also lines 137-140) |
| ControlCodecs.ListVec4 | src/effects/control.cpp:63-66 | a four-component key is overwritten only by a list of at least four numbers; otherwise the current value is kept |
| ControlCodecs.DecodeFogConstantsFields | src/effects/control.cpp:57-89 | decoded fog constants are determined by what each key reads as, and unencoded fields are the defaults |
| ControlCodecs.EncodedFogFogColor | src/effects/control.cpp:32-33 | the encoded fog colour reads back as written (also lines 63-66) |
| ControlCodecs.EncodedFogFogStart | src/effects/control.cpp:34 | the encoded fog start reads back as written (also line 67) |
| ControlCodecs.EncodedFogFogEndToHeightBase | src/effects/control.cpp:35-36 | fog end and height base read back as written (also lines 68-69) |
| ControlCodecs.EncodedFogHeightCeilingToAtmosDensity | src/effects/control.cpp:37-38 | height ceiling and atmosphere density read back as written (also lines 70-71) |
| ControlCodecs.EncodedFogFogAlphaToBlendAdditive | src/effects/control.cpp:39-40 | fog alpha reads back; the additive flag reads back normalised to 1 or 0 (also lines 72-73) |
| ControlCodecs.EncodedFogApplyToSkyToHeightFalloff | src/effects/control.cpp:41-42 | the apply-to-sky flag reads back normalised; the height falloff reads back (also lines 74-75) |
| ControlCodecs.EncodedFogFogImmersionToImmersionEnd | src/effects/control.cpp:43-45 | the three immersion scalars read back as written (also lines 76-78) |
| ControlCodecs.EncodedFogImmersionRangeToFogDiscCenterX | src/effects/control.cpp:46-49 | immersion range, ceiling fade and disc centre x read back; the distance-range flag reads back normalised (also lines 79-83) |
| ControlCodecs.EncodedFogFogDiscCenterZToFogDiscEdgeFade | src/effects/control.cpp:50-52 | disc centre z, radius and edge fade read back as written (also lines 84-86) |
| ControlCodecs.FogConstantsRoundTrip | src/effects/control.cpp:26-89 | encoded fog constants decode to their persisted form (flags 0 or 1, unencoded fields at their defaults), and round-trip exactly when they equal it |
| ControlCodecs.DecodedFogFlags | src/effects/control.cpp:73-74 | whatever the document holds, the decoded fog flags are 1 or 0 (also lines 80-81) |
| ControlCodecs.FogColorNeedsFourComponents | src/effects/control.cpp:63-66 | a three-component fog colour keeps the default; a five-component one gives its first four |
| ControlCodecs.DecodeLayerFields | src/effects/control.cpp:130-175 | a decoded cloud layer is determined by what each key reads as |
| ControlCodecs.EncodedLayerEnabled | src/effects/control.cpp:100 | the layer switch reads back normalised to 1 or 0 (also line 132) |
| ControlCodecs.EncodedLayerCover | src/effects/control.cpp:101 | the cover reads back as written (also line 133) |
| ControlCodecs.EncodedLayerSharpness | src/effects/control.cpp:102 | the sharpness reads back as written (also line 134) |
| ControlCodecs.EncodedLayerScattering | src/effects/control.cpp:103 | the scattering reads back as written (also line 135) |
| ControlCodecs.EncodedLayerLightColorToDarkColor | src/effects/control.cpp:104-105 | light and dark colours read back as written (also lines 137-144) |
| ControlCodecs.EncodedLayerOctaveWeights0to3ToOctaveWeights4to7 | src/effects/control.cpp:106-107 | both octave-weight vectors read back as written (also lines 145-152) |
| ControlCodecs.EncodedLayerOctaveEvolFreqs0to3ToOctaveEvolFreqs4to7 | src/effects/control.cpp:108-109 | both evolution-frequency vectors read back as written (also lines 153-160) |
| ControlCodecs.EncodedLayerAltitudeToCurvedRadius | src/effects/control.cpp:110-111 | altitude and curved radius read back as written (also lines 162-163) |
| ControlCodecs.EncodedLayerPlaneSizeToWindSpeed | src/effects/control.cpp:112-114 | plane size, tiling scale and wind speed read back as written (also lines 164-166) |
| ControlCodecs.EncodedLayerWindAngleToMaxLighting | src/effects/control.cpp:115-118 | wind angle, half height, light-ray step and maximum lighting read back as written (also lines 167-170) |
| ControlCodecs.EncodedLayerMinLightingToPlaneCenterZ | src/effects/control.cpp:119-121 | minimum lighting and the plane centre read back as written (also lines 171-173) |
| ControlCodecs.LayerRoundTrip | src/effects/control.cpp:94-176 | an encoded layer decodes to itself with the switch normalised, so it round-trips exactly when its switch is 0 or 1 |
| ControlCodecs.EncodeCloudLayers | src/effects/control.cpp:181-196 | the loop builds the node `CloudLayersNode` describes |
| ControlCodecs.DecodeCloudLayers | src/effects/control.cpp:198-216 | the loop restarts from the presets and overwrites at most three layers, as `CloudLayersFrom` describes: a `Layers` list gives its first three items, a mapping of k pairs resets the first min(k, 3) layers to `CloudLayerParams{}` |
| ControlCodecs.EncodedLayerAt | src/effects/control.cpp:189-193 | encoded layer i reads back in its persisted form (also lines 209-213) |
| ControlCodecs.EncodedLayersRead | src/effects/control.cpp:189-193 | all three encoded layers read back in their persisted form (also lines 209-213) |
| ControlCodecs.CloudLayersRoundTrip | src/effects/control.cpp:179-217 | an encoded cloud-layer buffer decodes to its persisted form, sun direction included |
| ControlCodecs.ShortLayerListKeepsPresets | src/effects/control.cpp:202 | a one-element `Layers` list sets only layer 0; layers 1 and 2 keep the cumulus and cirrus presets (also lines 209-213) |
| ControlCodecs.DecodeLayerEmpty | src/effects/control.cpp:126-132 | a layer decoded from a node without keys is `CloudLayerParams{}`, switched off |
| ControlCodecs.MappingLayersReset | src/effects/control.cpp:209-213 | a `Layers` mapping of k pairs bounds the loop by k and resets layers 0 to min(k, 3) - 1 to `CloudLayerParams{}`; the rest keep their presets |
| ControlCodecs.OnePairLayersMapping | src/effects/control.cpp:209-213 | `Layers: {Enabled: true}` turns layer 0 from the stratus preset into `CloudLayerParams{}`, switched off, and keeps cumulus and cirrus |
| ControlCodecs.DecodeVolumesFields | src/effects/control.cpp:257-302 | decoded cloud-volume constants are determined by what each key reads as |
| ControlCodecs.EncodedVolumesAreaMin | src/effects/control.cpp:227 | the area minimum reads back as written (also lines 259-262) |
| ControlCodecs.EncodedVolumesAreaMax | src/effects/control.cpp:228 | the area maximum reads back as written (also lines 263-266) |
| ControlCodecs.EncodedVolumesCloudSizeMin | src/effects/control.cpp:229 | the minimum cloud size reads back as written (also lines 267-270) |
| ControlCodecs.EncodedVolumesCloudSizeMax | src/effects/control.cpp:230 | the maximum cloud size reads back as written (also lines 271-274) |
| ControlCodecs.EncodedVolumesLightColorToDarkColor | src/effects/control.cpp:231-232 | light and dark colours read back as written (also lines 275-282) |
| ControlCodecs.EncodedVolumesSunDirectionToCloudCount | src/effects/control.cpp:233-234 | the sun direction and a cloud count that fits a `uint32` read back as written (also lines 283-288) |
| ControlCodecs.EncodedVolumesSharpnessToLightScattering | src/effects/control.cpp:235-236 | sharpness and light scattering read back as written (also lines 289-290) |
| ControlCodecs.EncodedVolumesMaxLightingToMinLighting | src/effects/control.cpp:237-238 | both lighting bounds read back as written (also lines 291-292) |
| ControlCodecs.EncodedVolumesNoiseInfluenceToDepthFadeNear | src/effects/control.cpp:239-241 | noise influence, noise tiling and near depth fade read back as written (also lines 293-295) |
| ControlCodecs.EncodedVolumesDepthFadeFarToWindSpeed | src/effects/control.cpp:242-245 | far depth fade, edge softness, density and wind speed read back as written (also lines 296-299) |
| ControlCodecs.EncodedVolumesWindAngleToSeed | src/effects/control.cpp:246-248 | wind angle, evolution speed and a seed that fits a `uint32` read back as written (also lines 300-302) |
| ControlCodecs.VolumesRoundTrip | src/effects/control.cpp:219-306 | encoded cloud-volume constants decode to themselves |
| PostprocessParams.SkyBf3ModeFromString | src/effects/postprocess_params.hpp:334-344 | the mode whose name the text is, or `atmospheric` when no mode has that name |
| PostprocessParams.TonemapperFromString | src/effects/postprocess_params.hpp:366-380 | the tonemapper whose name the text is, or `filmic` when none has that name |
| PostprocessParams.BloomModeFromString | src/effects/postprocess_params.hpp:396-404 | the bloom mode whose name the text is, or `blended` when none has that name |
| PostprocessParams.SsaoModeFromString | src/effects/postprocess_params.hpp:420-428 | the SSAO mode whose name the text is, or `ambient` when none has that name |
| PostprocessParams.SsaoMethodFromString | src/effects/postprocess_params.hpp:442-447 | `assao` whatever the text |
| PostprocessParams.EnumRoundTrips | src/effects/postprocess_params.hpp:318-447 | every enumerator's name reads back as that enumerator, for all five enumerations |
| PostprocessParams.EnumNamesInjective | src/effects/postprocess_params.hpp:318-431 | no two enumerators of one enumeration share a name |
| PostprocessParams.AlignmentRoundTrip | src/effects/postprocess_params.hpp:1158-1186 | an encoded cubemap alignment decodes to itself |
| PostprocessParams.SkyboxOverrideRoundTrip | src/effects/postprocess_params.hpp:1189-1225 | encoded skybox parameters decode to themselves with `debug_mode` reset, which is never written; they round-trip exactly when it is 0 |
| PostprocessParams.VignetteRoundTrip | src/effects/postprocess_params.hpp:637-665 | encoded vignette parameters decode to themselves |
| PostprocessParams.FilmGrainRoundTrip | src/effects/postprocess_params.hpp:768-802 | encoded film-grain parameters decode to themselves |
| PostprocessParams.SsaoRoundTrip | src/effects/postprocess_params.hpp:805-847 | encoded SSAO parameters decode to themselves |
| PostprocessParams.SsaoMissingKeys | src/effects/postprocess_params.hpp:142-153 | an empty document gives SSAO disabled in `global` mode, unlike the struct default, which is enabled in `ambient` mode (also lines 831-834) |
| PostprocessParams.FfxCasRoundTrip | src/effects/postprocess_params.hpp:850-874 | encoded sharpening parameters decode to themselves |
| PostprocessParams.DecodeDof | src/effects/postprocess_params.hpp:892-908 | whatever the document, the decoded film size is at least 1, the focus distance at least 0 and the f-stop at least 1 |
| PostprocessParams.DofRoundTrip | src/effects/postprocess_params.hpp:877-909 | depth-of-field parameters round-trip exactly when they are inside the clamped ranges |
| PostprocessParams.DofMissingKeys | src/effects/postprocess_params.hpp:162-168 | the defaults are in range, so an empty document decodes to them (also lines 892-908) |
| PostprocessBloom.DecodeBloomFields | src/effects/postprocess_params.hpp:567-633 | decoded bloom parameters are determined by the mode and by what each key reads as, threshold, blend factor and dirt scale read only in their mode |
| PostprocessBloom.EncodedBloomMode | src/effects/postprocess_params.hpp:522 | the encoded mode reads back as written (also lines 574-575) |
| PostprocessBloom.EncodedBloomSwitches | src/effects/postprocess_params.hpp:521 | the enable and dirt switches read back as written (also lines 557, 573, 621) |
| PostprocessBloom.EncodedBloomLevels | src/effects/postprocess_params.hpp:524-526 | threshold, blend factor and intensity are all written and read back when read (also lines 577-582) |
| PostprocessBloom.EncodedBloomDirt | src/effects/postprocess_params.hpp:528-530 | dirt scale, dirt tint, dirt texture and the tint read back as written (also lines 558-562, 584-586, 623-630) |
| PostprocessBloom.EncodedBloomInner | src/effects/postprocess_params.hpp:532-535 | the inner scale and tint read back as written (also lines 588-591) |
| PostprocessBloom.EncodedBloomInnerMid | src/effects/postprocess_params.hpp:537-540 | the inner-middle scale and tint read back as written (also lines 593-600) |
| PostprocessBloom.EncodedBloomMid | src/effects/postprocess_params.hpp:542-545 | the middle scale and tint read back as written (also lines 602-605) |
| PostprocessBloom.EncodedBloomOuter | src/effects/postprocess_params.hpp:547-555 | the outer-middle and outer scales and tints read back as written (also lines 607-619) |
| PostprocessBloom.BloomRoundTrip | src/effects/postprocess_params.hpp:514-634 | encoded parameters decode without a throw; in blended mode threshold and dirt scale come back at their defaults, in threshold mode the blend factor does; everything else comes back as written |
| PostprocessBloom.BloomRoundTripExact | src/effects/postprocess_params.hpp:577-580 | bloom parameters round-trip exactly when the fields their mode does not read hold their defaults (also lines 623-624) |
| PostprocessBloom.BloomMissingKeys | src/effects/postprocess_params.hpp:574-628 | the bloom decoder throws on an empty mapping; on one holding only the seven tints it returns threshold mode and intensity 0.75, not the struct defaults of blended mode and 1.0 |
| PostprocessColorGrading.DecodeColorGradingFields | src/effects/postprocess_params.hpp:710-765 | decoded colour-grading parameters are determined by what each key reads as |
| PostprocessColorGrading.EncodedColorFilter | src/effects/postprocess_params.hpp:675 | the colour filter reads back as written (also line 716) |
| PostprocessColorGrading.EncodedSaturationExposure | src/effects/postprocess_params.hpp:677-678 | saturation and exposure read back as written (also lines 718-719) |
| PostprocessColorGrading.EncodedBrightnessContrast | src/effects/postprocess_params.hpp:679-680 | brightness and contrast read back as written (also lines 720-721) |
| PostprocessColorGrading.EncodedTonemapper | src/effects/postprocess_params.hpp:682 | the tonemapper reads back through its name (also lines 723-724) |
| PostprocessColorGrading.EncodedFilmicToe | src/effects/postprocess_params.hpp:684-685 | the filmic toe reads back as written (also lines 726-729) |
| PostprocessColorGrading.EncodedFilmicShoulder | src/effects/postprocess_params.hpp:686-688 | the filmic shoulder reads back as written (also lines 730-735) |
| PostprocessColorGrading.EncodedWhitepointAndColors | src/effects/postprocess_params.hpp:689-692 | the whitepoint and the shadow and midtone colours read back as written (also lines 736-740) |
| PostprocessColorGrading.EncodedHighlightAndOffsets | src/effects/postprocess_params.hpp:693-697 | the highlight colour and the three offsets read back as written (also lines 741-747) |
| PostprocessColorGrading.EncodedHsvAndChannelMix | src/effects/postprocess_params.hpp:699-705 | the HSV adjustments and the channel mix read back as written (also lines 749-761) |
| PostprocessColorGrading.ColorGradingRoundTrip | src/effects/postprocess_params.hpp:668-766 | encoded colour-grading parameters decode to themselves |
| PostprocessColorGrading.ColorGradingMissingKeys | src/effects/postprocess_params.hpp:98-130 | an empty document decodes to the struct defaults (also lines 710-765) |
| PostprocessSkyParams.DecodeSkyDomeFields | src/effects/postprocess_params.hpp:1058-1082 | decoded sky-dome parameters are determined by what each key reads as |
| PostprocessSkyParams.EncodedSkyDomeAtmosphere | src/effects/postprocess_params.hpp:1038-1040 | the switch, texture name and density read back as written (also lines 1064-1066) |
| PostprocessSkyParams.EncodedSkyDomeHorizon | src/effects/postprocess_params.hpp:1042-1044 | the horizon values read back as written (also lines 1068-1070) |
| PostprocessSkyParams.EncodedSkyDomeFade | src/effects/postprocess_params.hpp:1046-1053 | the fade heights, tint and cubemap alignment read back as written (also lines 1072-1079) |
| PostprocessSkyParams.SkyDomeRoundTrip | src/effects/postprocess_params.hpp:1031-1083 | an encoded sky dome decodes to itself |
| PostprocessSkyParams.SkyDomeMissingKeys | src/effects/postprocess_params.hpp:254-278 | an empty document decodes to the struct defaults (also lines 1058-1082) |
| PostprocessSkyParams.DecodeSkyBf3Fields | src/effects/postprocess_params.hpp:1121-1154 | decoded BF3 sky parameters are determined by what each key reads as |
| PostprocessSkyParams.EncodedSkyBf3Enabled | src/effects/postprocess_params.hpp:1093 | the switch reads back as written (also line 1127) |
| PostprocessSkyParams.EncodedSkyBf3Mode | src/effects/postprocess_params.hpp:1094 | the mode reads back through its name (also lines 1128-1129) |
| PostprocessSkyParams.EncodedSkyBf3Atmosphere | src/effects/postprocess_params.hpp:1096-1097 | density and horizon shift read back as written (also lines 1131-1132) |
| PostprocessSkyParams.EncodedSkyBf3Horizon | src/effects/postprocess_params.hpp:1098-1099 | horizon start and blend read back as written (also lines 1133-1134) |
| PostprocessSkyParams.EncodedSkyBf3SpaceBlend | src/effects/postprocess_params.hpp:1101-1103 | the space-blend heights and the manual blend read back as written (also lines 1136-1138) |
| PostprocessSkyParams.EncodedSkyBf3Cubemaps | src/effects/postprocess_params.hpp:1105-1107 | the three cubemap names read back as written (also lines 1140-1142) |
| PostprocessSkyParams.EncodedSkyBf3Look | src/effects/postprocess_params.hpp:1109-1116 | the alignment, monochrome and RGBE switches, ambient colour and tint read back as written (also lines 1144-1151) |
| PostprocessSkyParams.SkyBf3RoundTrip | src/effects/postprocess_params.hpp:1086-1155 | an encoded BF3 sky decodes to itself |
| PostprocessSkyParams.SkyBf3MissingKeys | src/effects/postprocess_params.hpp:286-316 | an empty document decodes to the struct defaults (also lines 1121-1154) |
| PostprocessSkyParams.SkyBf3UnknownMode | src/effects/postprocess_params.hpp:334-344 | a mode text that names no mode gives `atmospheric` (also lines 1128-1129) |
| PostprocessFogParams.DecodeFogFields | src/effects/postprocess_params.hpp:969-1028 | decoded fog is determined by what each key reads as, over the defaults |
| PostprocessFogParams.EncodedFogEnabled | src/effects/postprocess_params.hpp:919 | the switch reads back as written (also line 976) |
| PostprocessFogParams.EncodedFogColor | src/effects/postprocess_params.hpp:920 | the colour reads back as written (also line 977) |
| PostprocessFogParams.EncodedFogDensity | src/effects/postprocess_params.hpp:921 | the density reads back as written (also line 978) |
| PostprocessFogParams.EncodedFogStart | src/effects/postprocess_params.hpp:922 | the start distance reads back as written (also line 979) |
| PostprocessFogParams.EncodedFogEnd | src/effects/postprocess_params.hpp:923 | the end distance reads back as written (also line 980) |
| PostprocessFogParams.EncodedHeightFogEnabled | src/effects/postprocess_params.hpp:925 | the height-fog switch reads back as written (also line 982) |
| PostprocessFogParams.EncodedHeightFogDensity | src/effects/postprocess_params.hpp:926 | the height-fog density reads back as written (also line 983) |
| PostprocessFogParams.EncodedHeightFogBase | src/effects/postprocess_params.hpp:927 | the height-fog base reads back as written (also line 984) |
| PostprocessFogParams.EncodedHeightFogFalloff | src/effects/postprocess_params.hpp:928 | the height-fog falloff reads back as written (also line 985) |
| PostprocessFogParams.EncodedSunInscatterEnabled | src/effects/postprocess_params.hpp:930 | the sun-inscatter switch reads back as written (also line 987) |
| PostprocessFogParams.EncodedSunDirection | src/effects/postprocess_params.hpp:931 | the sun direction reads back as written (also line 988) |
| PostprocessFogParams.EncodedSunColor | src/effects/postprocess_params.hpp:932 | the sun colour reads back as written (also line 989) |
| PostprocessFogParams.EncodedSunStrength | src/effects/postprocess_params.hpp:933-934 | sun intensity and power read back as written (also lines 990-991) |
| PostprocessFogParams.EncodedFogMaxOpacity | src/effects/postprocess_params.hpp:936 | the opacity cap reads back as written (also line 993) |
| PostprocessFogParams.EncodedFogNoiseScale | src/effects/postprocess_params.hpp:938-939 | the noise switch and scale read back as written (also lines 995-996) |
| PostprocessFogParams.EncodedFogNoiseMotion | src/effects/postprocess_params.hpp:940-941 | noise intensity and speed read back as written (also lines 997-998) |
| PostprocessFogParams.EncodedFogAtmosphere | src/effects/postprocess_params.hpp:943-945 | the atmosphere switch, intensity (read through the legacy fallback) and falloff read back as written (also lines 1000-1004) |
| PostprocessFogParams.EncodedFogAtmosphereLookup | src/effects/postprocess_params.hpp:946-947 | horizon offset and atmosphere texture read back as written (also lines 1005-1006) |
| PostprocessFogParams.EncodedFogSky | src/effects/postprocess_params.hpp:950-959 | height blending, zenith haze, space texture, altitude blend and sky-blend override read back as written (also lines 1009-1018) |
| PostprocessFogParams.EncodedFogCubemap | src/effects/postprocess_params.hpp:962-965 | the cubemap rotation, scale, offset and mip scale read back as written (also lines 1021-1024) |
| PostprocessFogParams.FogRoundTrip | src/effects/postprocess_params.hpp:912-1029 | encoded fog decodes to its persisted part with the cubemap-debug runtime fields reset; it decodes to itself exactly when those fields are at their defaults |
| PostprocessFogParams.FogLegacyAtmosDensity | src/effects/postprocess_params.hpp:1001-1003 | a legacy AtmosDensity key supplies the atmosphere intensity when AtmosIntensity is absent; AtmosIntensity wins when both exist |
| PostprocessFogParams.FogMissingKeys | src/effects/postprocess_params.hpp:170-253 | an empty document decodes to the struct defaults (also line 974) |
| PostprocessFog.PixelShader | src/effects/postprocess_fog.cpp:95-105 | one pixel shader per debug mode, the main shader with no debug mode, each selected exactly when its mode is set |
| PostprocessFog.ApplyTraceShape | src/effects/postprocess_fog.cpp:64-117 | an enabled pass draws once into the input target whether or not the map succeeded; the failed map drops only the upload |
| PostprocessFog.ApplyTraceViews | src/effects/postprocess_fog.cpp:76 | after the state is cleared, scene and depth are at pixel slots 0 and 1 at the draw (also lines 90, 111) |
| PostprocessFog.Postprocess.constructor | src/effects/postprocess_fog.hpp:74-76 | disabled, no debug mode, default fog parameters, nothing uploaded |
| PostprocessFog.Postprocess.SetEnabled | src/effects/postprocess_fog.hpp:36-37 | the switch takes the given value |
| PostprocessFog.Postprocess.SetDebugMode | src/effects/postprocess_fog.hpp:70-71 | the debug mode takes the given value |
| PostprocessFog.Postprocess.SetFogParams | src/effects/postprocess_fog.hpp:66-67 | writing the whole record through the reference replaces it |
| PostprocessFog.Postprocess.SetFogColor | src/effects/postprocess_fog.hpp:40 | only the colour changes |
| PostprocessFog.Postprocess.SetFogRange | src/effects/postprocess_fog.hpp:41-45 | only start and end change |
| PostprocessFog.Postprocess.SetHeightFog | src/effects/postprocess_fog.hpp:46-52 | only base, ceiling, density and alpha change |
| PostprocessFog.Postprocess.SetHeightFalloff | src/effects/postprocess_fog.hpp:53 | only the falloff changes |
| PostprocessFog.Postprocess.SetCeilingFade | src/effects/postprocess_fog.hpp:54 | only the ceiling fade changes |
| PostprocessFog.Postprocess.SetFogDisc | src/effects/postprocess_fog.hpp:55-61 | only the four disc fields change |
| PostprocessFog.Postprocess.SetBlendAdditive | src/effects/postprocess_fog.hpp:62 | only the additive flag changes, to 1 exactly when additive |
| PostprocessFog.Postprocess.SetApplyToSky | src/effects/postprocess_fog.hpp:63 | only the sky flag changes, to 1 exactly when applied |
| PostprocessFog.Postprocess.Apply | src/effects/postprocess_fog.cpp:61-118 | nothing when disabled; otherwise the constants are uploaded only when mapping succeeds and the pass is drawn either way |
| CubemapTransform.Widen | src/effects/cubemap_transform.hpp:38-40 | a padded row has a zero fourth component and narrows back to the input row |
| CubemapTransform.Pack | src/effects/cubemap_transform.hpp:13-21 | every packed rotation row has a zero pad (also lines 31-46) |
| CubemapTransform.PackInverse | src/effects/cubemap_transform.hpp:31-46 | packing loses nothing: the rows give back the rotation, and scale and offset are kept |
| CubemapTransform.PackAlignmentFields | src/effects/cubemap_transform.hpp:31-46 | a packed alignment carries its scale, offset and rotation, and the mip scale has no effect on it |
| SkyboxOverridePass.PackConstants | src/effects/skybox_override.cpp:69-106 | the atmosphere is used (1) exactly when a sky cubemap exists and is otherwise 0; the two projection terms are m33 and m43; the alignment is packed unchanged |
| SkyboxOverridePass.PackConstantsInverse | src/effects/skybox_override.cpp:69-106 | every numeric parameter, the integer debug mode included, can be read back from the constants; the switch and the cubemap names have no effect on them |
| SkyboxOverridePass.Views | src/effects/skybox_override.cpp:143-151 | six views, ground cubemap then sky cubemap first |
| SkyboxOverridePass.RenderTraceShape | src/effects/skybox_override.cpp:122-163 | a drawn frame has exactly one draw, into the output target |
| SkyboxOverridePass.RenderTraceViews | src/effects/skybox_override.cpp:143-151 | at the draw, the six views are at pixel slots 0 to 5 (also line 163) |
| SkyboxOverridePass.Skybox.constructor | src/effects/skybox_override.cpp:58-67 | default parameters, nothing uploaded |
| SkyboxOverridePass.Skybox.SetParams | src/effects/skybox_override.hpp:41 | the parameters are replaced |
| SkyboxOverridePass.Skybox.Render | src/effects/skybox_override.cpp:108-164 | nothing happens when disabled or without a ground cubemap; otherwise the packed constants are uploaded and the fixed pass is drawn |
| SkyDomePass.PackConstants | src/effects/sky_dome.cpp:75-107 | the rotation rows are padded with zero, scale and offset are copied, and the rows give back the rotation |
| SkyDomePass.PackConstantsInverse | src/effects/sky_dome.cpp:75-107 | the scalars, tint, scale and offset can be read back from the constants; the switch, the texture name and the angles (except through the rotation) have no effect on them |
| SkyDomePass.RenderTraceShape | src/effects/sky_dome.cpp:121-159 | a drawn frame has exactly one draw, into the output target |
| SkyDomePass.RenderTraceViews | src/effects/sky_dome.cpp:147 | at the draw, the atmosphere cubemap and the two depth views are at pixel slots 0 to 2 (also line 159) |
| SkyDomePass.SkyDome.constructor | src/effects/sky_dome.cpp:64-73 | default parameters, nothing uploaded |
| SkyDomePass.SkyDome.SetParams | src/effects/sky_dome.hpp:34 | the parameters are replaced |
| SkyDomePass.SkyDome.Render | src/effects/sky_dome.cpp:109-160 | nothing happens when disabled or without an atmosphere cubemap; otherwise the packed constants are uploaded and the fixed pass is drawn |
| CubemapDebugPass.PackConstants | src/effects/cubemap_debug.cpp:69-98 | at-infinity is 1 exactly when the flag is set and is otherwise 0; the grid is always on at the fixed thickness; the distance and the transform are copied |
| CubemapDebugPass.PackConstantsDependsOnDebugFields | src/effects/cubemap_debug.cpp:69-98 | only the debug distance, the at-infinity flag and the transform reach the constants |
| CubemapDebugPass.RenderTraceShape | src/effects/cubemap_debug.cpp:113-151 | a drawn frame has exactly one draw, into the output target |
| CubemapDebugPass.RenderTraceViews | src/effects/cubemap_debug.cpp:139 | at the draw, the cubemap and the two depth views are at pixel slots 0 to 2 (also line 151) |
| CubemapDebugPass.CubemapDebug.constructor | src/effects/cubemap_debug.cpp:58-67 | nothing is uploaded |
| CubemapDebugPass.CubemapDebug.Render | src/effects/cubemap_debug.cpp:100-152 | nothing happens unless the fog's cubemap debug flag is set and a cubemap is given; otherwise constants packed from the fog parameters are uploaded and the fixed pass is drawn |
| DebugStencilPass.PackConstants | src/effects/debug_stencil.cpp:52-56 | the mode is copied unchanged; the scene choice is 1 for the near scene and 0 for the far scene |
| DebugStencilPass.PackConstantsInverse | src/effects/debug_stencil.cpp:52-56 | packing is one-to-one on mode and scene choice |
| DebugStencilPass.RenderTraceShape | src/effects/debug_stencil.cpp:56-94 | an enabled render draws exactly once, into the output target, whatever the views are |
| DebugStencilPass.RenderTraceViews | src/effects/debug_stencil.cpp:77-94 | the draw samples the given depth and stencil views, and both slots are null afterwards |
| DebugStencilPass.DebugStencil.constructor | src/effects/debug_stencil.hpp:10-14 | default parameters (disabled, stencil colour, near scene), nothing uploaded (also line 37) |
| DebugStencilPass.DebugStencil.SetParams | src/effects/debug_stencil.hpp:27 | writing through the mutable reference replaces the parameters |
| DebugStencilPass.DebugStencil.Render | src/effects/debug_stencil.cpp:44-95 | nothing happens when disabled; otherwise the constants are uploaded and the fixed pass is drawn and then unbound |
| CloudsParams.HeightJitter | src/effects/clouds_params.hpp:65 | the height jitter is at most 2.5% of the spread in size |
| CloudsParams.VolumeAt | src/effects/clouds_params.hpp:57-77 | one generated volume lies in the generator's ranges (radius in [60, 180), scales and density in their bands, height within the jitter of the base) |
| CloudsParams.GenerateDefaultVolumes | src/effects/clouds_params.hpp:47-79 | only the volume list changes; it gets exactly max(0, count) volumes (a negative count throws in the source, see Left out), each in the generator's ranges and fixed by the arguments and the seed 42 alone |
| CloudsParams.DefaultVolumesPrefix | src/effects/clouds_params.hpp:52-78 | a longer generated list extends a shorter one: a volume does not depend on how many follow it |
| CloudsParams.DiskPointBound | src/effects/clouds_params.hpp:60-64 | with exact trigonometry the disk point lies within the spread of the origin |
| CloudsParams.VolumeInDisk | src/effects/clouds_params.hpp:60-65 | with exact trigonometry a generated volume lies horizontally inside the disk of radius spread |
| CloudsParams.DefaultVolumesInDisk | src/effects/clouds_params.hpp:56-78 | every generated volume lies inside that disk |
| CloudsParams.EncodedVolumeReads | src/effects/clouds_params.hpp:93-111 | every key of an encoded volume reads back as the field it was written from |
| CloudsParams.VolumeRoundTrip | src/effects/clouds_params.hpp:92-114 | an encoded volume decodes to itself |
| CloudsParams.DecodeVolumeEmpty | src/effects/clouds_params.hpp:17-22 | a mapping with none of the keys decodes to the volume defaults (also line 107) |
| CloudsParams.EncodeVolumeList | src/effects/clouds_params.hpp:134-137 | the encoder's loop yields one encoded item per volume, in order |
| CloudsParams.DecodeVolumeList | src/effects/clouds_params.hpp:157-161 | the decoder's loop yields one decoded volume per item, in order |
| CloudsParams.VolumeListRoundTrip | src/effects/clouds_params.hpp:134-137 | decoding the encoded list gives back the volumes, count and order included (also lines 157-161) |
| CloudsParams.DecodeParamsFields | src/effects/clouds_params.hpp:141-163 | decoded parameters are determined by what each key reads as |
| CloudsParams.EncodedParamsParticles | src/effects/clouds_params.hpp:122-127 | the switch, particle and colour keys read back as written (also lines 145-150) |
| CloudsParams.EncodedParamsMotion | src/effects/clouds_params.hpp:128-132 | the wind and fade keys read back as written (also lines 151-155) |
| CloudsParams.ParamsRoundTrip | src/effects/clouds_params.hpp:116-164 | encoded parameters decode to themselves, every volume included |
| CloudsParams.DecodedVolumeCount | src/effects/clouds_params.hpp:144 | the volume list is always rebuilt: no Volumes key gives none, a sequence gives one volume per element, and an element without keys gives the volume defaults (also lines 157-161) |
| CloudsBf3Params.ScaledIndex | src/effects/clouds_bf3_params.hpp:99 | the clustering index is always a valid index into a non-empty list |
| CloudsBf3Params.NextVolume | src/effects/clouds_bf3_params.hpp:90-123 | a generated volume has its height in [base, base + 150), density in [0.5, 1.2), 8 to 22 clusters and 5 to 10 particles per cluster; an iteration consumes 14 samples when it clusters (test sample above 0.7 and a non-empty list) and 11 otherwise |
| CloudsBf3Params.CloudField | src/effects/clouds_bf3_params.hpp:89-124 | the field has exactly n volumes, each in the generator's ranges |
| CloudsBf3Params.GenerateCloudField | src/effects/clouds_bf3_params.hpp:80-125 | only the volume list changes; it gets exactly max(0, volume_count) volumes (a negative count throws in the source, see Left out), each in range and fixed by the arguments and the seed 42 alone |
| CloudsBf3Params.DefaultParams | src/effects/clouds_bf3_params.hpp:24-77 | the default constructor is enabled with particle sizes 100 to 280 and cluster radius 70, and holds a 50-volume field at base height 450 and spread 4000 |
| CloudsBf3Params.CloudFieldPrefix | src/effects/clouds_bf3_params.hpp:85-124 | a longer field extends a shorter one |
| Clouds.DefaultParamsShape | src/effects/clouds.hpp:54-86 | the default is switched off, over three enabled layers at heights 300, 500 and 800 |
| Clouds.DecodeLayerFields | src/effects/clouds.hpp:229-260 | a decoded layer is determined by what each of its twenty keys reads as |
| Clouds.EncodedLayerShape | src/effects/clouds.hpp:202-206 | switch, height, thickness, scale and density read back as written (also lines 235-239) |
| Clouds.EncodedLayerMotion | src/effects/clouds.hpp:207-212 | scroll, curvature, threshold and softness read back as written (also lines 240-245) |
| Clouds.EncodedLayerLighting | src/effects/clouds.hpp:213-224 | the lighting keys and the fog boost read back as written (also lines 246-257) |
| Clouds.EncodedLayerVectors | src/effects/clouds.hpp:214-221 | the two colours and the two octave vectors read back as written (also lines 247-254) |
| Clouds.LayerRoundTrip | src/effects/clouds.hpp:195-261 | an encoded layer decodes to itself |
| Clouds.DecodeLayerEmpty | src/effects/clouds.hpp:23-52 | a layer node without keys decodes to the member defaults (also line 233) |
| Clouds.DecodeParamsFields | src/effects/clouds.hpp:288-311 | decoded parameters are determined by what each key reads as |
| Clouds.EncodedParamsLayers | src/effects/clouds.hpp:274-276 | the three layer mappings decode back to the layers (also lines 298-300) |
| Clouds.EncodedParamsScalars | src/effects/clouds.hpp:271-284 | the switch, fades, fog-boost scale and curvature centre read back as written (also lines 295-308) |
| Clouds.ParamsRoundTrip | src/effects/clouds.hpp:264-312 | encoded parameters decode to themselves, all three layers included |
| Clouds.LayerKeyPresence | src/effects/clouds.hpp:298-300 | an absent LayerN key keeps that layer's preset; a present mapping is decoded from its keys over the member defaults, and a list or an empty mapping gives the member defaults, so either replaces the low preset (also line 233) |
| Clouds.ContributionBounds | src/effects/clouds.cpp:80-91 | a layer contributes exactly when it is enabled, has a positive boost and the camera is strictly within half its thickness of its height; then its boost is in (0, fog_boost_max] |
| Clouds.MaxBoostStep | src/effects/clouds.cpp:80-92 | each loop step folds one more layer's contribution into the running maximum |
| Clouds.MaxBoostIsMaximum | src/effects/clouds.cpp:78-92 | the running maximum is at least 0 and every contribution, and is 0 or the largest contribution |
| Clouds.NoContributionNoBoost | src/effects/clouds.cpp:76-94 | with no contributing layer the boost is 0 |
| Clouds.MaxBoostRange | src/effects/clouds.cpp:78-92 | the running maximum lies between 0 and any nonnegative bound on the layers' maxima |
| Clouds.FogBoostBounds | src/effects/clouds.cpp:74-95 | the boost lies between 0 and the largest layer maximum times the global scale |
| Clouds.SingleLayerBoost | src/effects/clouds.cpp:74-95 | inside a single contributing layer the boost is that layer's contribution times the global scale |
| Clouds.PackLayerInverse | src/effects/clouds.cpp:123-151 | packing keeps every field of an enabled layer; a disabled layer packs as if enabled with density 0; the normal-lighting flag packs to 1 or 0 |
| Clouds.PackConstants | src/effects/clouds.cpp:97-154 | the constants hold exactly three packed layers |
| Clouds.PackConstantsLayers | src/effects/clouds.cpp:100-153 | each packed layer is its parameter layer packed; a disabled layer only has its density zeroed |
| Clouds.OctaveFallback | src/effects/clouds.cpp:171-178 | the octave texture is found when the octaves or the perlin texture exists, the octaves taking precedence |
| Clouds.DrawTraceShape | src/effects/clouds.cpp:189-218 | a drawn frame issues one draw, into the output target |
| Clouds.Clouds.constructor | src/effects/clouds.cpp:63-72 | default parameters, no octave texture yet |
| Clouds.Clouds.SetParams | src/effects/clouds.hpp:114 | the parameters are replaced |
| Clouds.Clouds.CalculateFogBoost | src/effects/clouds.cpp:74-95 | the result is the specified fog boost: 0 when off, else the maximum layer contribution scaled by the global scale |
| Clouds.Clouds.Render | src/effects/clouds.cpp:156-219 | nothing happens when disabled; otherwise the constants are uploaded first, the octave texture is looked up once and kept, and without it the frame ends after the upload |
| CloudsBf3.MakeParticle | src/effects/clouds_bf3.cpp:631-652 | a particle lies within the cluster radius of its centre (half of it vertically), with size between the two size limits, alpha in [0.5, 1) and density between 0.7 and 1.3 times the volume's |
| CloudsBf3.ClusterParticles | src/effects/clouds_bf3.cpp:631 | the particle loop only appends, and stops once the buffer holds 80000 particles |
| CloudsBf3.VolumeClusters | src/effects/clouds_bf3.cpp:613-654 | the cluster loop only appends |
| CloudsBf3.FillVolumes | src/effects/clouds_bf3.cpp:612-655 | the volume loop only appends |
| CloudsBf3.VolumeClustersCount | src/effects/clouds_bf3.cpp:613 | one volume adds clusters times particles per cluster, capped at 80000 in total (also line 631) |
| CloudsBf3.FillVolumesCount | src/effects/clouds_bf3.cpp:612-655 | all volumes add the requested total, capped at 80000 |
| CloudsBf3.ClusterParticlesRanges | src/effects/clouds_bf3.cpp:631-652 | every particle one cluster adds is in the ranges of its volume |
| CloudsBf3.VolumeClustersRanges | src/effects/clouds_bf3.cpp:613-654 | every particle one volume adds is in the ranges of that volume |
| CloudsBf3.FillVolumesRanges | src/effects/clouds_bf3.cpp:612-655 | every particle added is in the ranges of some volume |
| CloudsBf3.ParticlesCount | src/effects/clouds_bf3.cpp:31 | a rebuild yields min(80000, requested) particles, each within the ranges of some volume (also lines 606-657) |
| CloudsBf3.AppendCluster | src/effects/clouds_bf3.cpp:631-653 | the imperative particle loop computes the cluster specification |
| CloudsBf3.AppendVolume | src/effects/clouds_bf3.cpp:613-654 | the imperative cluster loop computes the volume specification |
| CloudsBf3.SameParamsNoRebuild | src/effects/clouds_bf3.cpp:319-344 | setting the same parameters again never rebuilds |
| CloudsBf3.DensityOnlyNoRebuild | src/effects/clouds_bf3.cpp:319-344 | changing only densities, or the particle sizes by at most 1, does not rebuild |
| CloudsBf3.VolumeLayoutChanged | src/effects/clouds_bf3.cpp:321-336 | the comparison loop reports a change exactly when the counts differ or some volume differs in cluster count, particles per cluster, position or scale |
| CloudsBf3.LowresSide | src/effects/clouds_bf3.cpp:412-413 | a low-resolution side is a quarter of the full side, rounded down, and never 0 |
| CloudsBf3.NoiseFallback | src/effects/clouds_bf3.cpp:379-386 | the noise texture is found when the cloud noise or the white texture exists, the cloud noise taking precedence |
| CloudsBf3.UpsampleConstantsFor | src/effects/clouds_bf3.cpp:543-551 | the fixed threshold and sharpness, first-person depth 1 exactly when that view exists, and a low-resolution size of at least 1 by 1 |
| CloudsBf3.FrameDraws | src/effects/clouds_bf3.cpp:520 | a frame draws twice: every particle as an instance, then one full-screen triangle (also line 586) |
| CloudsBf3.FrameTargets | src/effects/clouds_bf3.cpp:505 | the particles are drawn into the low-resolution target, which is unbound before it is sampled; the upsample writes to the output target or, with OIT, to the three UAVs (also lines 520-528, 573-586) |
| CloudsBf3.FrameOit | src/effects/clouds_bf3.cpp:534-540 | the OIT shader is chosen exactly when all three UAVs are present, and only then are the UAVs released at the end (also lines 593-598) |
| CloudsBf3.Clouds.constructor | src/effects/clouds_bf3.cpp:227-298 | default parameters, no particles, dirty, no noise texture (also lines 706-709) |
| CloudsBf3.Clouds.RebuildParticles | src/effects/clouds_bf3.cpp:606-657 | the list is rebuilt from the reseeded engine, with min(80000, requested) particles, and marked dirty |
| CloudsBf3.Clouds.SetParams | src/effects/clouds_bf3.cpp:319-351 | the parameters are stored; the list is rebuilt exactly when the volume layout, a particle size or the cluster radius changed; the list is always marked for upload |
| CloudsBf3.Clouds.UploadParticles | src/effects/clouds_bf3.cpp:659-672 | a dirty non-empty list is copied, up to the buffer's capacity, when the buffer maps; the dirty flag is cleared whenever the list is non-empty, mapped or not |
| CloudsBf3.Clouds.Render | src/effects/clouds_bf3.cpp:355-600 | nothing when disabled; an empty list is rebuilt once and the frame skipped if it stays empty; the noise texture is looked up once and the frame skipped without it; otherwise the particles are uploaded and the two-pass frame is issued |
| CloudVolume.NextInstance | src/effects/cloud_volume.cpp:349-356 | a generated instance lies inside the configured box and size range, with rotation in [0, 2π) and noise offset in [0, 1) |
| CloudVolume.Instances | src/effects/cloud_volume.cpp:348-357 | n draws give exactly n instances |
| CloudVolume.InstancesInRange | src/effects/cloud_volume.cpp:348-357 | every generated instance is in range |
| CloudVolume.InstancesPrefix | src/effects/cloud_volume.cpp:348-357 | an instance does not depend on how many follow it |
| CloudVolume.InstancesDeterministic | src/effects/cloud_volume.cpp:336-357 | parameters that agree on the box and the size range generate the same instances from the same engine |
| CloudVolume.ConstantsFor | src/effects/cloud_volume.cpp:216-250 | the view and projection matrices are transposed for HLSL; the depth pair is -m43 and ±m33 with the sign chosen so their product is not negative |
| CloudVolume.ApplyTraceDraws | src/effects/cloud_volume.cpp:256-318 | a frame draws once, four vertices per instance for every instance, with the input target bound; the instance and depth views are cleared afterwards |
| CloudVolume.Volumes.constructor | src/effects/cloud_volume.cpp:167-180 | disabled, due for generation, default parameters, no instances; the instance and constant buffers hold nothing until they are first mapped |
| CloudVolume.Volumes.SetEnabled | src/effects/cloud_volume.hpp:34 | the switch takes the given value |
| CloudVolume.Volumes.SetParams | src/effects/cloud_volume.hpp:38 | writing through the parameter reference stores them and leaves the instances as they are |
| CloudVolume.Volumes.SetViewProjection | src/effects/cloud_volume.cpp:321-328 | exactly the four frame fields are assigned |
| CloudVolume.Volumes.RegenerateClouds | src/effects/cloud_volume.cpp:330-360 | the list is refilled with min(cloud_count, 128) instances from the engine reseeded with the seed, each in range |
| CloudVolume.Volumes.UploadInstances | src/effects/cloud_volume.cpp:199-211 | the first min(n, 128) slots receive the instances field for field and the others are untouched |
| CloudVolume.Volumes.Apply | src/effects/cloud_volume.cpp:182-319 | nothing when disabled; instances are generated if due and the flag cleared; an empty list ends the frame; otherwise instances and constants are uploaded when their buffers map, and the frame is drawn either way |
| CloudLayer.WrapIsMod | src/effects/cloud_layer.cpp:86-87 | for a positive frequency the wrapped coordinate is the mathematical modulus, an index in [0, freq) |
| CloudLayer.LatticeValue | src/effects/cloud_layer.cpp:92 | the low 16 bits of the hash scaled to [0, 1] |
| CloudLayer.TileableNoise | src/effects/cloud_layer.cpp:83-93 | a lattice value lies in [0, 1] |
| CloudLayer.Cell | src/effects/cloud_layer.cpp:90-92 | the hash of the wrapped cell, with unsigned 32-bit wrap-around, scaled to [0, 1] |
| CloudLayer.TileableNoiseShiftX | src/effects/cloud_layer.cpp:83-93 | the lattice repeats every freq cells along x |
| CloudLayer.TileableNoiseShiftY | src/effects/cloud_layer.cpp:83-93 | the lattice repeats every freq cells along y |
| CloudLayer.WrapPeriodic | src/effects/cloud_layer.cpp:86-87 | shifting a coordinate by freq leaves its wrapped cell unchanged |
| CloudLayer.Smoothstep | src/effects/cloud_layer.cpp:104-105 | the smoothstep weight of a fraction lies in [0, 1] |
| CloudLayer.Lerp | src/effects/cloud_layer.cpp:112-115 | a blend at a weight in [0, 1] lies between its two ends |
| CloudLayer.Bilerp | src/effects/cloud_layer.cpp:112-115 | a bilinear blend of four values in [0, 1] lies in [0, 1] |
| CloudLayer.CellNoise | src/effects/cloud_layer.cpp:107-115 | the blended noise of one cell lies in [0, 1] |
| CloudLayer.SmoothNoise | src/effects/cloud_layer.cpp:96-116 | smooth noise lies in [0, 1] |
| CloudLayer.CellNoiseShiftX | src/effects/cloud_layer.cpp:107-115 | a cell freq cells further along x meets the same four lattice values |
| CloudLayer.CellNoiseShiftY | src/effects/cloud_layer.cpp:107-115 | a cell freq cells further along y meets the same four lattice values |
| CloudLayer.SmoothNoiseShiftX | src/effects/cloud_layer.cpp:96-116 | smooth noise tiles along x with period freq |
| CloudLayer.SmoothNoiseShiftY | src/effects/cloud_layer.cpp:96-116 | smooth noise tiles along y with period freq |
| CloudLayer.Amp | src/effects/cloud_layer.cpp:122 | every octave's amplitude is positive (also line 131) |
| CloudLayer.OctaveFreq | src/effects/cloud_layer.cpp:124 | an octave's frequency is the base doubled, never smaller in size than the base (also line 132) |
| CloudLayer.Octave | src/effects/cloud_layer.cpp:127-129 | one octave's sample lies in [0, 1] |
| CloudLayer.OctaveFreqDouble | src/effects/cloud_layer.cpp:132 | doubling the base doubles every octave's frequency |
| CloudLayer.OctaveIs | src/effects/cloud_layer.cpp:126-133 | octave j samples at the base frequency doubled j times with seed plus j times 1000 |
| CloudLayer.Samples | src/effects/cloud_layer.cpp:126-133 | the four octave samples, each in [0, 1] |
| CloudLayer.TotalAmpFour | src/effects/cloud_layer.cpp:122-131 | four octaves weigh 1.875 in total |
| CloudLayer.WeightedSumRange | src/effects/cloud_layer.cpp:126-133 | samples in [0, 1] sum, weighted, to between 0 and the total weight |
| CloudLayer.WeightedSumStep | src/effects/cloud_layer.cpp:127-131 | one loop step adds the next sample at its amplitude |
| CloudLayer.FbmRange | src/effects/cloud_layer.cpp:119-136 | the normalised noise lies in [0, 1] |
| CloudLayer.OctaveTilesX | src/effects/cloud_layer.cpp:127-129 | every octave repeats after 256 texels along x |
| CloudLayer.OctaveTilesY | src/effects/cloud_layer.cpp:127-129 | every octave repeats after 256 texels along y |
| CloudLayer.FbmTiles | src/effects/cloud_layer.cpp:119-136 | the noise repeats after 256 texels in both directions, so the wrapping sampler shows no seam |
| CloudLayer.FbmNoise | src/effects/cloud_layer.cpp:119-136 | the accumulator loop computes the normalised noise, which lies in [0, 1] |
| CloudLayer.ToByte | src/effects/cloud_layer.cpp:172 | a value in [0, 1] scaled by 255 truncates to its byte |
| CloudLayer.TexelIndex | src/effects/cloud_layer.cpp:162 | a byte index decodes back to its texel and channel (also line 172) |
| CloudLayer.TexelBytes | src/effects/cloud_layer.cpp:162-173 | the four bytes of a texel are its channels in order |
| CloudLayer.FillTexel | src/effects/cloud_layer.cpp:169-173 | the channel loop writes the texel's four bytes and nothing before them |
| CloudLayer.FillNoiseTexture | src/effects/cloud_layer.cpp:157-175 | every byte of the texture is its specified channel value at frequency 4, 8, 16 or 32 and seed base plus channel times 2000 |
| CloudLayer.ApplyTraceDraws | src/effects/cloud_layer.cpp:229-259 | the frame starts from a cleared context and draws one full-screen triangle into the input target |
| CloudLayer.Layer.constructor | src/effects/cloud_layer.cpp:36-50 | disabled, default layers, both noise textures generated and bound; the constant buffer holds nothing until its first successful map (also lines 140-150) |
| CloudLayer.Layer.SetEnabled | src/effects/cloud_layer.hpp:29 | the switch takes the given value |
| CloudLayer.Layer.SetParams | src/effects/cloud_layer.hpp:33 | writing through the parameter reference replaces the parameters |
| CloudLayer.Layer.SetLayer | src/effects/cloud_layer.hpp:37 | only the indexed layer changes |
| CloudLayer.Layer.SetNoiseTextures | src/effects/cloud_layer.cpp:206-211 | a slot is replaced only by a non-null view |
| CloudLayer.Layer.Apply | src/effects/cloud_layer.cpp:213-260 | nothing when disabled or a noise texture is missing; otherwise the buffer holds the caller's constants when it maps, keeps what it held when it does not, and the triangle is drawn either way |
| MaterialDump.Float3PassLast | src/material/editor.cpp:148-157 | after the float3 pass a name has a default exactly when it had one or was matched, and the last match wins |
| MaterialDump.BoolPassLast | src/material/editor.cpp:172-180 | after the bool pass a name has a default exactly when it had one or was matched, and the last match wins |
| MaterialDump.FloatPassFirst | src/material/editor.cpp:159-170 | the float pass never overwrites a name already present, and among its own matches the first wins |
| MaterialDump.DefaultsMergePolicy | src/material/editor.cpp:129-183 | a name has a default exactly when some pattern matched it: a bool match wins, else the last float3 match, else the first float match; an unreadable script gives no defaults |
| MaterialDump.ParseLuaDefaults | src/material/editor.cpp:129-183 | the three passes compute the merge policy |
| MaterialDump.LookupIsStable | src/material/editor.cpp:185-201 | a second lookup of the same type returns what the first did whatever the script now holds; a missing script leaves the cache as it was and gives no defaults; cached types are never changed |
| MaterialDump.FloatsEqual | src/material/editor.cpp:207-209 | equal exactly when closer than 0.0001 |
| MaterialDump.FloatsEqualSymmetric | src/material/editor.cpp:207-209 | closeness is symmetric and reflexive |
| MaterialDump.IsDefaultValue | src/material/editor.cpp:211-240 | a property is a default only when its type has a default of the same kind for it that it matches, floats within the tolerance per component; other kinds are never defaults |
| MaterialDump.IsDefaultWhenClose | src/material/editor.cpp:220-234 | a property matching its default of the same kind within the tolerance is a default |
| MaterialDump.NonDefaultIff | src/material/editor.cpp:317-330 | the Material section is written exactly when some property differs from its default |
| MaterialDump.TexturesNonEmpty | src/material/editor.cpp:333-345 | the textures listed are exactly the non-empty ones, in order |
| MaterialDump.DumpOfDefaults | src/material/editor.cpp:313-346 | with nothing to report a dump holds only the type line |
| MaterialDump.DefaultsCache.constructor | src/material/editor.cpp:127 | the cache starts empty |
| MaterialDump.DefaultsCache.GetDefaultsForType | src/material/editor.cpp:185-201 | the lookup follows its specification, caching a parsed script only when it exists |
| MaterialDump.DefaultsCache.IsDefault | src/material/editor.cpp:211-240 | the defaults of the type are looked up, then the property compared with them |
| MaterialDump.DefaultsCache.CollectNonDefault | src/material/editor.cpp:317-322 | the loop collects the text of every property that is not a default, in order |
| MaterialDump.DefaultsCache.DumpMaterialToMtrl | src/material/editor.cpp:297-347 | nothing is written when the file cannot be opened; otherwise the dump text is written to the sanitised name under the dump directory |
| MaterialDump.WriteDump | src/material/editor.cpp:313-346 | the type line, then each section only when it has entries |
| MaterialDump.AppendSection | src/material/editor.cpp:325-330 | a section's header and lines are written only when it has entries (also lines 341-346) |
| MaterialDump.AppendLines | src/material/editor.cpp:327-329 | one indented "name: value" line per entry (also lines 343-345) |
| MaterialDump.CollectTextures | src/material/editor.cpp:333-339 | the loop collects the textures with a non-empty value, in order |
| MaterialStrings.IndexOf | src/material/editor.cpp:101 | the first position of the character, or none when it is absent |
| MaterialStrings.LastNotOf | src/material/editor.cpp:103 | the last position holding another character, or none |
| MaterialStrings.Prefix | src/material/editor.cpp:105 | at most the first count characters (also line 108) |
| MaterialStrings.NatToString | src/material/editor.cpp:265-288 | a non-empty run of decimal digits |
| MaterialStrings.NatToStringRoundTrip | src/material/editor.cpp:265-288 | reading the digits back gives the number printed |
| MaterialStrings.IntToStringRoundTrip | src/material/editor.cpp:265-288 | a printed integer starts with '-' exactly when it is negative, and the digits after the sign read back to its magnitude |
| MaterialStrings.PadZeros | src/material/editor.cpp:98 | leading zeros reach the width and the digits are kept |
| MaterialStrings.FixedSix | src/material/editor.cpp:97-99 | a sign, the whole part, one point and exactly six decimals |
| MaterialStrings.Round | src/material/editor.cpp:98 | the nearest whole number, an exact half going to the even neighbour as `%.6f` rounds |
| MaterialStrings.FixedSixValue | src/material/editor.cpp:97-99 | with n the magnitude of x in millionths rounded to the nearest: the text is the sign, the whole digits, a point and six decimals; it starts with '-' exactly for a negative value; the whole digits read back to n / 10^6 and the decimals to n % 10^6; and n millionths are within half a millionth of the magnitude |
| MaterialStrings.FixedSixTieToEven | src/material/editor.cpp:98 | an exact tie rounds to even: 2^-7 prints as "0.007812" |
| MaterialStrings.DigitsBound | src/material/editor.cpp:98 | a number below 10^6 has at most six digits |
| MaterialStrings.TrimZeros | src/material/editor.cpp:100-111 | only trailing zeros are cut, and only after a point; at least one digit stays after the point; text without a point is unchanged |
| MaterialStrings.FormatFloat | src/material/editor.cpp:96-112 | the six-decimal text cut of trailing zeros, keeping the point and at least one decimal |
| MaterialStrings.FormatFloatValue | src/material/editor.cpp:96-112 | putting the cut zeros back gives the six-decimal text, so the trimmed text denotes the same value |
| MaterialStrings.TrimZerosExamples | src/material/editor.cpp:100-111 | "1.000000" becomes "1.0", "2.500000" becomes "2.5", "12" stays |
| MaterialStrings.BoolText | src/material/editor.cpp:251-252 | a boolean reads "yes" or "no", and the two differ |
| MaterialStrings.ComponentCount | src/material/editor.cpp:244-291 | a property's text has one component per component of its value, separated by commas |
| MaterialStrings.FormatFloatNoComma | src/material/editor.cpp:96-112 | a formatted float holds no comma |
| MaterialStrings.IntToStringNoComma | src/material/editor.cpp:265-288 | a printed integer holds no comma |
| MaterialStrings.SanitisedChar | src/material/editor.cpp:303-308 | a reserved character becomes '_' and every other stays |
| MaterialStrings.SanitisedName | src/material/editor.cpp:302-308 | a sanitised name has the same length and no reserved character |
| MaterialStrings.SanitiseFilename | src/material/editor.cpp:302-308 | the loop replaces every reserved character by '_' and keeps every other |

## Left out

- The ImGui panels are left out because they are user interface: the `show_*_imgui` functions of `src/effects/control.cpp` (lines 403-524 and 724-2158, with `imgui_save_widget`), `Debug_visualizer::show_imgui` and the material editor window.
- The random cloud-layer presets (`generate_random_stratus`, `_cumulus`, `_cirrus`) are left out because they draw from a `thread_local std::random_device` and are nondeterministic.
- `std::mt19937` is not reproduced. A seeded engine is a stream of samples in [0, 1), one per distribution call, so the model fixes the order and the number of draws, not their values.
- Floating point is modelled over the reals: there is no single-precision rounding, no NaN or infinity, and the material dumper's 0.0001 tolerance is compared exactly.
- Sines, cosines, square roots, `acos` and `cbrt` are parameters: the disk and sphere placements of the cloud generators, and `Trig` with the `ExactTrig` laws it is assumed to obey.
- The `glm` matrix inverse of `projection * view` and the rotation `glm::yawPitchRoll` builds from Euler angles are passed in as values.
- The BF3 particle texture (`hash`, `noise2d`, `fbm`, `create_particle_texture` in `src/effects/clouds_bf3.cpp`) is left out as procedural numerics, and so is the cloud volume's 3D noise texture in `src/effects/cloud_volume.cpp`, whose signed `int` hash also overflows. Both textures are handles.
- The sun-direction cache of the BF3 clouds (`src/effects/clouds_bf3.cpp:389-402`) is left out: it compares float lengths and dot products and only feeds shading constants.
- The colours of stencil values beyond the eight-entry palette are computed with sines; the model records them as `Gpu.Hue(ref % 8, alpha)`, the step they are derived from.
- The depth-aware upsample filter runs in HLSL shaders that are not part of this model. Only the constants the pass uploads and the order of its calls are modelled.
- D3D11 descriptor contents are not recorded in the trace: blend, sampler, rasterizer and depth-stencil descriptors, viewports, primitive topology, input layouts, mapped-buffer flags and `Profile` scopes. Shaders, blend states and constant buffers are named by strings. The constant-buffer binds themselves (`PSSetConstantBuffers`, `VSSetConstantBuffers`) are recorded as `BindConstantBuffer` events at their positions in every pass.
- yaml-cpp is not modelled: parsing, emitting, and nodes other than mappings of scalars and short lists. `YAML::LoadFile` and a failure to read are replaced by a document or `None`. Of its exceptions only the one the bloom decoder raises on a missing tint is modelled (`PostprocessBloom.DecodeBloomThrows`).
- PostprocessBloom.DecodeBloom / TintAt / BloomMissingKeys / EffectsControl.EmptyConfig: `node["Tint"][0]` throws `InvalidNode` on a missing key and `BadSubscript` on a scalar. `DecodeBloom` and `TintAt` give the values the decoder returns when it does not throw; whether it throws is `DecodeBloomThrows`, and `read_config` then stops after the control and color-grading sections (`EffectsControl.ConfigEffects`).
- EffectsControl.Section, EffectsControl.FogSection, EffectsControl.ConfigCloudLayers, EffectsControl.CloudVolumeSection, Clouds.LayerAt, ControlCodecs.ItemLayer and CloudsParams.ItemVolume: a value that is not a mapping reads as a node without keys. For a list this is what yaml-cpp does, since `node[key]` on a sequence is an undefined node. A scalar instead makes the decoder's first `node[key]` throw `BadSubscript`; the model decodes it like a list. For `Bloom` the two agree, since a node without keys throws there too; for the other sections they do not.
- Yaml.AsStr, Yaml.AsInt and Yaml.AsU32: scalars are typed by value, not by their text. yaml-cpp's `as<std::string>` returns the text of any scalar (a texture named `123`), where `AsStr` of a number gives the fallback; and `as<int>` rejects the text "2.0", where `AsInt` of the number 2.0 gives 2.
- ControlCodecs.LayerList: only the keys of the model's vocabulary are represented, so the pair count of a `Layers` mapping counts only those, where yaml-cpp's `size()` counts every pair; and a mapping whose keys are the integers 0 to 2, which `layers_node[i]` would find by value, cannot be written.
- CloudsParams.VolumesAt: a non-empty mapping under `Volumes` makes the range-for of `src/effects/clouds_params.hpp:159-160` hand `as<Cloud_volume>()` a key-value pair, which throws `InvalidNode`; the model reads it as no volumes.
- `convert<std::vector<float>>` and the other vector decoders call `as<float>()` without a fallback and throw `TypedBadConversion` on an element that is not a number. `Yaml.AsFloats` returns the fallback for such a sequence instead.
- `output_params_to_yaml_string`, `save_params_to_yaml_file` and `save_params_to_munged_file` are left out because they are file and resource output. The per-record encoders they call are modelled.
- `ofstream`, `save_volume_resource` and `create_directories` are file-system I/O. The dump returns the path and the text it would write, or `None` when the file cannot be opened.
- `std::regex`, `std::stof` and `ifstream` in `parse_lua_defaults` are I/O and parsing. The parse is given the matches in file order, and only how they are merged into the defaults is modelled. Whether a script file exists is a boolean parameter.
- `GetAsyncKeyState` is the `held` parameter, the set of virtual keys that are down. What `CreateDepthStencilState` returns is the `create` parameter.
- `uint32_t` arithmetic is modelled with bounded naturals and explicit modular `Add32`, `Mul32` and `Xor32`, not with `bv32`: the two agree on every value, and bit-vector multiplication was too costly to reason about.
- Concurrency and COM reference counting are left out.
- `src/game_support/game_memory.cpp` (process-memory probing), `src/core/oit_provider.hpp` (declarations only) and `tools/create_cloud_atlas.py` (an offline image tool) are not part of this model. `src/core/constant_buffers.hpp` contributes only its default values and presets.
- EffectsControl.Control.constructor and EffectsControl.Control.LoadParamsFromYamlFile: they store the open-failure flag that `OpenFailureCorrected` computes, true when the file cannot be read or `read_config` throws. The as-written flag is false after every load (see Findings).
- `convert<Effects_control_config>`, the decoder of the `Control` section, is not part of this model. A decoded control configuration is known by the mapping it was decoded from (`EffectsControl.ControlConfig`).
- C++ leaves the evaluation order of the arguments of `glm::vec3(dist_x(rng), dist_y(rng), dist_z(rng))` unspecified. `CloudVolume.NextInstance` assumes x, then y, then z.
- CloudsBf3Params.DefaultParams: only the fields that the particle builder and the rebuild comparison read are modelled. The shading fields are copied into the constant buffer unchanged and are left out.
- CloudsParams.GenerateDefaultVolumes: a negative `count` makes `volumes.reserve(count)` (`src/effects/clouds_params.hpp:50`) convert it to a huge `size_t` and throw `std::length_error`; the model does not model that exception and yields an empty list instead.
- CloudsBf3Params.GenerateCloudField: a negative `volume_count` makes `volumes.reserve(volume_count)` (`src/effects/clouds_bf3_params.hpp:83`) throw `std::length_error` in the same way; the model yields an empty list instead.
- CloudVolume.ConstantsFor: `Gpu_constants` also carries `view_proj_matrix = transpose(proj * view)`, the normalised sun direction and the parameter copies of `src/effects/cloud_volume.cpp:218-240`; the model leaves out the matrix product, the normalisation and the copies, and records only the two transposed matrices, the camera, the time and the depth pair.
- Clouds.PackConstants: its own contract states only that three layers are packed. What each packed layer holds is stated by `Clouds.PackConstantsLayers`.

## Findings

| source | as written | input that shows it | evidently intended | confidence | as-written member | corrected member |
|---|---|---|---|---|---|---|
| src/effects/control.cpp:636-661 | `load_params_from_yaml_file` sets `_open_failure` to true when loading or reading throws, then unconditionally sets it to false before returning | a path that cannot be opened: the error is logged but `_open_failure` is false afterwards | `_open_failure` is true exactly when the load or the read failed | not executed | EffectsControl.OpenFailureAsWritten | EffectsControl.OpenFailureCorrected |
| src/core/debug_visualizer.cpp:519-551 | the value-pass loop counts `ref` as a `uint8_t` from 1 while `ref <= stencil_max_ref` | `stencil_max_ref = 255`, which a user configuration can set: `ref` wraps from 255 to 0 and the loop never ends | one pass for each ref from 1 to `stencil_max_ref`, then stop | not executed | DebugVisualizer.AsWrittenValueLoopNeverExits | DebugVisualizer.Visualizer.RenderStencilValuePasses |
