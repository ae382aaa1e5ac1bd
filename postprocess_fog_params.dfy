/**
 * The fog parameters and their YAML codec.
 *
 * Sixteen fields are runtime state the codec never writes (the cubemap
 * debug view, the in-cloud boost set by the cloud system, the depth debug
 * view and the captured projection terms); they decode to their defaults.
 * The atmosphere intensity is also read from the legacy `AtmosDensity` key
 * when `AtmosIntensity` is missing.
 */
module PostprocessFogParams {
  import opened Gpu
  import opened Yaml

  /** `Fog_params`. */
  datatype FogParams = FogParams(
    enabled: bool,
    color: Vec3,
    density: real,
    startDistance: real,
    endDistance: real,
    heightFogEnabled: bool,
    heightDensity: real,
    heightBase: real,
    heightFalloff: real,
    sunInscatterEnabled: bool,
    sunDirection: Vec3,
    sunColor: Vec3,
    sunIntensity: real,
    sunPower: real,
    maxOpacity: real,
    noiseEnabled: bool,
    noiseScale: real,
    noiseIntensity: real,
    noiseSpeed: real,
    atmosphereEnabled: bool,
    atmosIntensity: real,
    atmosFalloff: real,
    horizonOffset: real,
    atmosphereTextureName: string,
    atmosHighIntensity: real,
    heightBlendWeight: real,
    cubemapRotation: Vec3,
    cubemapScale: Vec3,
    cubemapOffset: Vec3,
    cubemapMipScale: real,
    cubemapDebugEnabled: bool,
    cubemapDebugAtInfinity: bool,
    cubemapDebugDistance: real,
    cloudBoost: real,
    cloudTint: Vec3,
    zenithHaze: real,
    spaceTextureName: string,
    altitudeBlendStart: real,
    altitudeBlendEnd: real,
    skyBlendOverride: real,
    debugDepthEnabled: bool,
    debugBufferMode: int,
    debugMaxDistance: real,
    nearSceneNear: real,
    nearSceneFar: real,
    farSceneNear: real,
    farSceneFar: real,
    capturedNearM33: real,
    capturedNearM43: real,
    capturedFarM33: real,
    capturedFarM43: real)

  /** `Fog_params{}`: every effect switched off. */
  const DefaultFog: FogParams := FogParams(
    false,
    Vec3(0.7, 0.8, 0.9),
    1.0,
    50.0,
    500.0,
    false,
    1.0,
    0.0,
    0.01,
    false,
    Vec3(0.5, 0.5, 0.0),
    Vec3(1.0, 0.9, 0.7),
    0.5,
    8.0,
    0.95,
    false,
    100.0,
    0.3,
    0.1,
    false,
    0.001,
    0.5,
    0.1,
    "",
    0.0,
    0.0,
    Vec3(0.0, 0.0, 0.0),
    Vec3(1.0, 1.0, 1.0),
    Vec3(0.0, 0.0, 0.0),
    0.0,
    false,
    true,
    5000.0,
    0.0,
    Vec3(1.0, 1.0, 1.0),
    0.3,
    "",
    1000.0,
    5000.0,
    0.0,
    false,
    0,
    1000.0,
    220.0,
    300.0,
    500.0,
    5000.0,
    0.0,
    0.0,
    0.0,
    0.0)

  /** `convert<Fog_params>::encode`: every persisted field. */
  function EncodeFog(p: FogParams): Node {
    map[
      Key.Enable := Bool(p.enabled),
      Key.Color := Vec3Value(p.color),
      Key.Density := Num(p.density),
      Key.StartDistance := Num(p.startDistance),
      Key.EndDistance := Num(p.endDistance),
      Key.HeightFogEnable := Bool(p.heightFogEnabled),
      Key.HeightDensity := Num(p.heightDensity),
      Key.HeightBase := Num(p.heightBase),
      Key.HeightFalloff := Num(p.heightFalloff),
      Key.SunInscatterEnable := Bool(p.sunInscatterEnabled),
      Key.SunDirection := Vec3Value(p.sunDirection),
      Key.SunColor := Vec3Value(p.sunColor),
      Key.SunIntensity := Num(p.sunIntensity),
      Key.SunPower := Num(p.sunPower),
      Key.MaxOpacity := Num(p.maxOpacity),
      Key.NoiseEnable := Bool(p.noiseEnabled),
      Key.NoiseScale := Num(p.noiseScale),
      Key.NoiseIntensity := Num(p.noiseIntensity),
      Key.NoiseSpeed := Num(p.noiseSpeed),
      Key.AtmosphereEnable := Bool(p.atmosphereEnabled),
      Key.AtmosIntensity := Num(p.atmosIntensity),
      Key.AtmosFalloff := Num(p.atmosFalloff),
      Key.HorizonOffset := Num(p.horizonOffset),
      Key.AtmosphereTexture := Str(p.atmosphereTextureName),
      Key.AtmosHighIntensity := Num(p.atmosHighIntensity),
      Key.HeightBlendWeight := Num(p.heightBlendWeight),
      Key.ZenithHaze := Num(p.zenithHaze),
      Key.SpaceTexture := Str(p.spaceTextureName),
      Key.AltitudeBlendStart := Num(p.altitudeBlendStart),
      Key.AltitudeBlendEnd := Num(p.altitudeBlendEnd),
      Key.SkyBlendOverride := Num(p.skyBlendOverride),
      Key.CubemapRotation := Vec3Value(p.cubemapRotation),
      Key.CubemapScale := Vec3Value(p.cubemapScale),
      Key.CubemapOffset := Vec3Value(p.cubemapOffset),
      Key.CubemapMipScale := Num(p.cubemapMipScale)]
  }

  /** `convert<Fog_params>::decode`: every persisted field read over `Fog_params{}`, the atmosphere intensity falling back to the legacy `AtmosDensity` key. */
  function DecodeFog(n: Node): FogParams {
    var d := DefaultFog;
    FogParams(
      AsBool(n, Key.Enable, d.enabled),
      AsVec3(n, Key.Color, d.color),
      AsNum(n, Key.Density, d.density),
      AsNum(n, Key.StartDistance, d.startDistance),
      AsNum(n, Key.EndDistance, d.endDistance),
      AsBool(n, Key.HeightFogEnable, d.heightFogEnabled),
      AsNum(n, Key.HeightDensity, d.heightDensity),
      AsNum(n, Key.HeightBase, d.heightBase),
      AsNum(n, Key.HeightFalloff, d.heightFalloff),
      AsBool(n, Key.SunInscatterEnable, d.sunInscatterEnabled),
      AsVec3(n, Key.SunDirection, d.sunDirection),
      AsVec3(n, Key.SunColor, d.sunColor),
      AsNum(n, Key.SunIntensity, d.sunIntensity),
      AsNum(n, Key.SunPower, d.sunPower),
      AsNum(n, Key.MaxOpacity, d.maxOpacity),
      AsBool(n, Key.NoiseEnable, d.noiseEnabled),
      AsNum(n, Key.NoiseScale, d.noiseScale),
      AsNum(n, Key.NoiseIntensity, d.noiseIntensity),
      AsNum(n, Key.NoiseSpeed, d.noiseSpeed),
      AsBool(n, Key.AtmosphereEnable, d.atmosphereEnabled),
      AsNum(n, Key.AtmosIntensity, AsNum(n, Key.AtmosDensity, d.atmosIntensity)),
      AsNum(n, Key.AtmosFalloff, d.atmosFalloff),
      AsNum(n, Key.HorizonOffset, d.horizonOffset),
      AsStr(n, Key.AtmosphereTexture, d.atmosphereTextureName),
      AsNum(n, Key.AtmosHighIntensity, d.atmosHighIntensity),
      AsNum(n, Key.HeightBlendWeight, d.heightBlendWeight),
      AsVec3(n, Key.CubemapRotation, d.cubemapRotation),
      AsVec3(n, Key.CubemapScale, d.cubemapScale),
      AsVec3(n, Key.CubemapOffset, d.cubemapOffset),
      AsNum(n, Key.CubemapMipScale, d.cubemapMipScale),
      d.cubemapDebugEnabled,
      d.cubemapDebugAtInfinity,
      d.cubemapDebugDistance,
      d.cloudBoost,
      d.cloudTint,
      AsNum(n, Key.ZenithHaze, d.zenithHaze),
      AsStr(n, Key.SpaceTexture, d.spaceTextureName),
      AsNum(n, Key.AltitudeBlendStart, d.altitudeBlendStart),
      AsNum(n, Key.AltitudeBlendEnd, d.altitudeBlendEnd),
      AsNum(n, Key.SkyBlendOverride, d.skyBlendOverride),
      d.debugDepthEnabled,
      d.debugBufferMode,
      d.debugMaxDistance,
      d.nearSceneNear,
      d.nearSceneFar,
      d.farSceneNear,
      d.farSceneFar,
      d.capturedNearM33,
      d.capturedNearM43,
      d.capturedFarM33,
      d.capturedFarM43)
  }

  /** Decoded parameters are determined by what each of their keys reads as. */
  lemma DecodeFogFields(n: Node, p: FogParams)
    requires AsBool(n, Key.Enable, DefaultFog.enabled) == p.enabled
    requires AsVec3(n, Key.Color, DefaultFog.color) == p.color
    requires AsNum(n, Key.Density, DefaultFog.density) == p.density
    requires AsNum(n, Key.StartDistance, DefaultFog.startDistance) == p.startDistance
    requires AsNum(n, Key.EndDistance, DefaultFog.endDistance) == p.endDistance
    requires AsBool(n, Key.HeightFogEnable, DefaultFog.heightFogEnabled) == p.heightFogEnabled
    requires AsNum(n, Key.HeightDensity, DefaultFog.heightDensity) == p.heightDensity
    requires AsNum(n, Key.HeightBase, DefaultFog.heightBase) == p.heightBase
    requires AsNum(n, Key.HeightFalloff, DefaultFog.heightFalloff) == p.heightFalloff
    requires AsBool(n, Key.SunInscatterEnable, DefaultFog.sunInscatterEnabled) == p.sunInscatterEnabled
    requires AsVec3(n, Key.SunDirection, DefaultFog.sunDirection) == p.sunDirection
    requires AsVec3(n, Key.SunColor, DefaultFog.sunColor) == p.sunColor
    requires AsNum(n, Key.SunIntensity, DefaultFog.sunIntensity) == p.sunIntensity
    requires AsNum(n, Key.SunPower, DefaultFog.sunPower) == p.sunPower
    requires AsNum(n, Key.MaxOpacity, DefaultFog.maxOpacity) == p.maxOpacity
    requires AsBool(n, Key.NoiseEnable, DefaultFog.noiseEnabled) == p.noiseEnabled
    requires AsNum(n, Key.NoiseScale, DefaultFog.noiseScale) == p.noiseScale
    requires AsNum(n, Key.NoiseIntensity, DefaultFog.noiseIntensity) == p.noiseIntensity
    requires AsNum(n, Key.NoiseSpeed, DefaultFog.noiseSpeed) == p.noiseSpeed
    requires AsBool(n, Key.AtmosphereEnable, DefaultFog.atmosphereEnabled) == p.atmosphereEnabled
    requires AsNum(n, Key.AtmosIntensity, AsNum(n, Key.AtmosDensity, DefaultFog.atmosIntensity)) == p.atmosIntensity
    requires AsNum(n, Key.AtmosFalloff, DefaultFog.atmosFalloff) == p.atmosFalloff
    requires AsNum(n, Key.HorizonOffset, DefaultFog.horizonOffset) == p.horizonOffset
    requires AsStr(n, Key.AtmosphereTexture, DefaultFog.atmosphereTextureName) == p.atmosphereTextureName
    requires AsNum(n, Key.AtmosHighIntensity, DefaultFog.atmosHighIntensity) == p.atmosHighIntensity
    requires AsNum(n, Key.HeightBlendWeight, DefaultFog.heightBlendWeight) == p.heightBlendWeight
    requires AsVec3(n, Key.CubemapRotation, DefaultFog.cubemapRotation) == p.cubemapRotation
    requires AsVec3(n, Key.CubemapScale, DefaultFog.cubemapScale) == p.cubemapScale
    requires AsVec3(n, Key.CubemapOffset, DefaultFog.cubemapOffset) == p.cubemapOffset
    requires AsNum(n, Key.CubemapMipScale, DefaultFog.cubemapMipScale) == p.cubemapMipScale
    requires p.cubemapDebugEnabled == DefaultFog.cubemapDebugEnabled
    requires p.cubemapDebugAtInfinity == DefaultFog.cubemapDebugAtInfinity
    requires p.cubemapDebugDistance == DefaultFog.cubemapDebugDistance
    requires p.cloudBoost == DefaultFog.cloudBoost
    requires p.cloudTint == DefaultFog.cloudTint
    requires AsNum(n, Key.ZenithHaze, DefaultFog.zenithHaze) == p.zenithHaze
    requires AsStr(n, Key.SpaceTexture, DefaultFog.spaceTextureName) == p.spaceTextureName
    requires AsNum(n, Key.AltitudeBlendStart, DefaultFog.altitudeBlendStart) == p.altitudeBlendStart
    requires AsNum(n, Key.AltitudeBlendEnd, DefaultFog.altitudeBlendEnd) == p.altitudeBlendEnd
    requires AsNum(n, Key.SkyBlendOverride, DefaultFog.skyBlendOverride) == p.skyBlendOverride
    requires p.debugDepthEnabled == DefaultFog.debugDepthEnabled
    requires p.debugBufferMode == DefaultFog.debugBufferMode
    requires p.debugMaxDistance == DefaultFog.debugMaxDistance
    requires p.nearSceneNear == DefaultFog.nearSceneNear
    requires p.nearSceneFar == DefaultFog.nearSceneFar
    requires p.farSceneNear == DefaultFog.farSceneNear
    requires p.farSceneFar == DefaultFog.farSceneFar
    requires p.capturedNearM33 == DefaultFog.capturedNearM33
    requires p.capturedNearM43 == DefaultFog.capturedNearM43
    requires p.capturedFarM33 == DefaultFog.capturedFarM33
    requires p.capturedFarM43 == DefaultFog.capturedFarM43
    ensures DecodeFog(n) == p
  {
  }

  /** The switch of encoded fog reads back as written. */
  lemma EncodedFogEnabled(p: FogParams)
    ensures AsBool(EncodeFog(p), Key.Enable, DefaultFog.enabled) == p.enabled
  {
  }

  /** The colour of encoded fog reads back as written. */
  lemma EncodedFogColor(p: FogParams)
    ensures AsVec3(EncodeFog(p), Key.Color, DefaultFog.color) == p.color
  {
  }

  /** The density of encoded fog reads back as written. */
  lemma EncodedFogDensity(p: FogParams)
    ensures AsNum(EncodeFog(p), Key.Density, DefaultFog.density) == p.density
  {
  }

  /** The start distance of encoded fog reads back as written. */
  lemma EncodedFogStart(p: FogParams)
    ensures AsNum(EncodeFog(p), Key.StartDistance, DefaultFog.startDistance) == p.startDistance
  {
  }

  /** The end distance of encoded fog reads back as written. */
  lemma EncodedFogEnd(p: FogParams)
    ensures AsNum(EncodeFog(p), Key.EndDistance, DefaultFog.endDistance) == p.endDistance
  {
  }

  /** The height-fog switch of encoded fog reads back as written. */
  lemma EncodedHeightFogEnabled(p: FogParams)
    ensures AsBool(EncodeFog(p), Key.HeightFogEnable, DefaultFog.heightFogEnabled) == p.heightFogEnabled
  {
  }

  /** The height-fog density of encoded fog reads back as written. */
  lemma EncodedHeightFogDensity(p: FogParams)
    ensures AsNum(EncodeFog(p), Key.HeightDensity, DefaultFog.heightDensity) == p.heightDensity
  {
  }

  /** The height-fog base of encoded fog reads back as written. */
  lemma EncodedHeightFogBase(p: FogParams)
    ensures AsNum(EncodeFog(p), Key.HeightBase, DefaultFog.heightBase) == p.heightBase
  {
  }

  /** The height-fog falloff of encoded fog reads back as written. */
  lemma EncodedHeightFogFalloff(p: FogParams)
    ensures AsNum(EncodeFog(p), Key.HeightFalloff, DefaultFog.heightFalloff) == p.heightFalloff
  {
  }

  /** The sun-inscatter switch of encoded fog reads back as written. */
  lemma EncodedSunInscatterEnabled(p: FogParams)
    ensures AsBool(EncodeFog(p), Key.SunInscatterEnable, DefaultFog.sunInscatterEnabled) == p.sunInscatterEnabled
  {
  }

  /** The sun direction of encoded fog reads back as written. */
  lemma EncodedSunDirection(p: FogParams)
    ensures AsVec3(EncodeFog(p), Key.SunDirection, DefaultFog.sunDirection) == p.sunDirection
  {
  }

  /** The sun colour of encoded fog reads back as written. */
  lemma EncodedSunColor(p: FogParams)
    ensures AsVec3(EncodeFog(p), Key.SunColor, DefaultFog.sunColor) == p.sunColor
  {
  }

  /** The sun intensity and power of encoded fog read back as written. */
  lemma EncodedSunStrength(p: FogParams)
    ensures AsNum(EncodeFog(p), Key.SunIntensity, DefaultFog.sunIntensity) == p.sunIntensity
    ensures AsNum(EncodeFog(p), Key.SunPower, DefaultFog.sunPower) == p.sunPower
  {
  }

  /** The opacity cap of encoded fog reads back as written. */
  lemma EncodedFogMaxOpacity(p: FogParams)
    ensures AsNum(EncodeFog(p), Key.MaxOpacity, DefaultFog.maxOpacity) == p.maxOpacity
  {
  }

  /** The noise switch and scale of encoded fog read back as written. */
  lemma EncodedFogNoiseScale(p: FogParams)
    ensures AsBool(EncodeFog(p), Key.NoiseEnable, DefaultFog.noiseEnabled) == p.noiseEnabled
    ensures AsNum(EncodeFog(p), Key.NoiseScale, DefaultFog.noiseScale) == p.noiseScale
  {
  }

  /** The noise intensity and speed of encoded fog read back as written. */
  lemma EncodedFogNoiseMotion(p: FogParams)
    ensures AsNum(EncodeFog(p), Key.NoiseIntensity, DefaultFog.noiseIntensity) == p.noiseIntensity
    ensures AsNum(EncodeFog(p), Key.NoiseSpeed, DefaultFog.noiseSpeed) == p.noiseSpeed
  {
  }

  /** The atmosphere switch, intensity and falloff of encoded fog read back as written. */
  lemma EncodedFogAtmosphere(p: FogParams)
    ensures AsBool(EncodeFog(p), Key.AtmosphereEnable, DefaultFog.atmosphereEnabled) == p.atmosphereEnabled
    ensures AsNum(EncodeFog(p), Key.AtmosIntensity, AsNum(EncodeFog(p), Key.AtmosDensity, DefaultFog.atmosIntensity)) == p.atmosIntensity
    ensures AsNum(EncodeFog(p), Key.AtmosFalloff, DefaultFog.atmosFalloff) == p.atmosFalloff
  {
  }

  /** The horizon offset and atmosphere texture of encoded fog read back as written. */
  lemma EncodedFogAtmosphereLookup(p: FogParams)
    ensures AsNum(EncodeFog(p), Key.HorizonOffset, DefaultFog.horizonOffset) == p.horizonOffset
    ensures AsStr(EncodeFog(p), Key.AtmosphereTexture, DefaultFog.atmosphereTextureName) == p.atmosphereTextureName
  {
  }

  /** The height blending, zenith haze and space blending of encoded fog read back as written. */
  lemma EncodedFogSky(p: FogParams)
    ensures AsNum(EncodeFog(p), Key.AtmosHighIntensity, DefaultFog.atmosHighIntensity) == p.atmosHighIntensity
    ensures AsNum(EncodeFog(p), Key.HeightBlendWeight, DefaultFog.heightBlendWeight) == p.heightBlendWeight
    ensures AsNum(EncodeFog(p), Key.ZenithHaze, DefaultFog.zenithHaze) == p.zenithHaze
    ensures AsStr(EncodeFog(p), Key.SpaceTexture, DefaultFog.spaceTextureName) == p.spaceTextureName
    ensures AsNum(EncodeFog(p), Key.AltitudeBlendStart, DefaultFog.altitudeBlendStart) == p.altitudeBlendStart
    ensures AsNum(EncodeFog(p), Key.AltitudeBlendEnd, DefaultFog.altitudeBlendEnd) == p.altitudeBlendEnd
    ensures AsNum(EncodeFog(p), Key.SkyBlendOverride, DefaultFog.skyBlendOverride) == p.skyBlendOverride
  {
  }

  /** The cubemap alignment of encoded fog reads back as written. */
  lemma EncodedFogCubemap(p: FogParams)
    ensures AsVec3(EncodeFog(p), Key.CubemapRotation, DefaultFog.cubemapRotation) == p.cubemapRotation
    ensures AsVec3(EncodeFog(p), Key.CubemapScale, DefaultFog.cubemapScale) == p.cubemapScale
    ensures AsVec3(EncodeFog(p), Key.CubemapOffset, DefaultFog.cubemapOffset) == p.cubemapOffset
    ensures AsNum(EncodeFog(p), Key.CubemapMipScale, DefaultFog.cubemapMipScale) == p.cubemapMipScale
  {
  }

  /** `p` with every field the codec does not write back at its default. */
  function PersistedFog(p: FogParams): FogParams {
    var d := DefaultFog;
    p.(cubemapDebugEnabled := d.cubemapDebugEnabled,
       cubemapDebugAtInfinity := d.cubemapDebugAtInfinity,
       cubemapDebugDistance := d.cubemapDebugDistance,
       cloudBoost := d.cloudBoost,
       cloudTint := d.cloudTint,
       debugDepthEnabled := d.debugDepthEnabled,
       debugBufferMode := d.debugBufferMode,
       debugMaxDistance := d.debugMaxDistance,
       nearSceneNear := d.nearSceneNear,
       nearSceneFar := d.nearSceneFar,
       farSceneNear := d.farSceneNear,
       farSceneFar := d.farSceneFar,
       capturedNearM33 := d.capturedNearM33,
       capturedNearM43 := d.capturedNearM43,
       capturedFarM33 := d.capturedFarM33,
       capturedFarM43 := d.capturedFarM43)
  }

  /**
   * Encoded fog decodes to its persisted part: every written field comes
   * back as written and the runtime state is reset, so fog survives a round
   * trip exactly when its runtime state is at the defaults.
   */
  lemma FogRoundTrip(p: FogParams)
    ensures DecodeFog(EncodeFog(p)) == PersistedFog(p)
    ensures DecodeFog(EncodeFog(p)) == p <==> p == PersistedFog(p)
  {
    EncodedFogEnabled(p);
    EncodedFogColor(p);
    EncodedFogDensity(p);
    EncodedFogStart(p);
    EncodedFogEnd(p);
    EncodedHeightFogEnabled(p);
    EncodedHeightFogDensity(p);
    EncodedHeightFogBase(p);
    EncodedHeightFogFalloff(p);
    EncodedSunInscatterEnabled(p);
    EncodedSunDirection(p);
    EncodedSunColor(p);
    EncodedSunStrength(p);
    EncodedFogMaxOpacity(p);
    EncodedFogNoiseScale(p);
    EncodedFogNoiseMotion(p);
    EncodedFogAtmosphere(p);
    EncodedFogAtmosphereLookup(p);
    EncodedFogSky(p);
    EncodedFogCubemap(p);
    DecodeFogFields(EncodeFog(p), PersistedFog(p));
  }

  /**
   * A document that only has the legacy `AtmosDensity` key gets its
   * atmosphere intensity from it; `AtmosIntensity` wins when both are present.
   */
  lemma FogLegacyAtmosDensity(n: Node, legacy: real, current: real)
    ensures Key.AtmosIntensity !in n ==>
              DecodeFog(n[Key.AtmosDensity := Num(legacy)]).atmosIntensity == legacy
    ensures DecodeFog(n[Key.AtmosDensity := Num(legacy)][Key.AtmosIntensity := Num(current)]).atmosIntensity == current
  {
  }

  /** A document without fog keys decodes to the defaults. */
  lemma FogMissingKeys()
    ensures DecodeFog(map[]) == DefaultFog
  {
  }
}
