/**
 * The sky-dome and BF3 sky parameters and their YAML codecs, both of which
 * round-trip: every field is written and read back over the struct
 * defaults, the BF3 mode by its name.
 */
module PostprocessSkyParams {
  import opened Gpu
  import opened Yaml
  import opened PostprocessParams

  /** `Sky_dome_params`. */
  datatype SkyDomeParams = SkyDomeParams(
    enabled: bool,
    atmosphereTextureName: string,
    atmosphereDensity: real,
    horizonShift: real,
    horizonStart: real,
    horizonBlend: real,
    fadeStartHeight: real,
    fadeEndHeight: real,
    tint: Vec3,
    cubemapRotation: Vec3,
    cubemapScale: Vec3,
    cubemapOffset: Vec3)

  /** `Sky_dome_params{}`: disabled, no atmosphere texture, unit tint. */
  const DefaultSkyDome: SkyDomeParams := SkyDomeParams(
    false,
    "",
    1.0,
    0.1,
    0.3,
    0.0,
    100.0,
    500.0,
    Vec3(1.0, 1.0, 1.0),
    Vec3(0.0, 0.0, 0.0),
    Vec3(1.0, 1.0, 1.0),
    Vec3(0.0, 0.0, 0.0))

  /** `convert<Sky_dome_params>::encode`. */
  function EncodeSkyDome(p: SkyDomeParams): Node {
    map[
      Key.Enable := Bool(p.enabled),
      Key.AtmosphereTexture := Str(p.atmosphereTextureName),
      Key.AtmosphereDensity := Num(p.atmosphereDensity),
      Key.HorizonShift := Num(p.horizonShift),
      Key.HorizonStart := Num(p.horizonStart),
      Key.HorizonBlend := Num(p.horizonBlend),
      Key.FadeStartHeight := Num(p.fadeStartHeight),
      Key.FadeEndHeight := Num(p.fadeEndHeight),
      Key.Tint := Vec3Value(p.tint),
      Key.CubemapRotation := Vec3Value(p.cubemapRotation),
      Key.CubemapScale := Vec3Value(p.cubemapScale),
      Key.CubemapOffset := Vec3Value(p.cubemapOffset)]
  }

  /** `convert<Sky_dome_params>::decode`: every field read over `Sky_dome_params{}`. */
  function DecodeSkyDome(n: Node): SkyDomeParams {
    var d := DefaultSkyDome;
    SkyDomeParams(
      AsBool(n, Key.Enable, d.enabled),
      AsStr(n, Key.AtmosphereTexture, d.atmosphereTextureName),
      AsNum(n, Key.AtmosphereDensity, d.atmosphereDensity),
      AsNum(n, Key.HorizonShift, d.horizonShift),
      AsNum(n, Key.HorizonStart, d.horizonStart),
      AsNum(n, Key.HorizonBlend, d.horizonBlend),
      AsNum(n, Key.FadeStartHeight, d.fadeStartHeight),
      AsNum(n, Key.FadeEndHeight, d.fadeEndHeight),
      AsVec3(n, Key.Tint, d.tint),
      AsVec3(n, Key.CubemapRotation, d.cubemapRotation),
      AsVec3(n, Key.CubemapScale, d.cubemapScale),
      AsVec3(n, Key.CubemapOffset, d.cubemapOffset))
  }

  /** Decoded parameters are determined by what each of their keys reads as. */
  lemma DecodeSkyDomeFields(n: Node, p: SkyDomeParams)
    requires AsBool(n, Key.Enable, DefaultSkyDome.enabled) == p.enabled
    requires AsStr(n, Key.AtmosphereTexture, DefaultSkyDome.atmosphereTextureName) == p.atmosphereTextureName
    requires AsNum(n, Key.AtmosphereDensity, DefaultSkyDome.atmosphereDensity) == p.atmosphereDensity
    requires AsNum(n, Key.HorizonShift, DefaultSkyDome.horizonShift) == p.horizonShift
    requires AsNum(n, Key.HorizonStart, DefaultSkyDome.horizonStart) == p.horizonStart
    requires AsNum(n, Key.HorizonBlend, DefaultSkyDome.horizonBlend) == p.horizonBlend
    requires AsNum(n, Key.FadeStartHeight, DefaultSkyDome.fadeStartHeight) == p.fadeStartHeight
    requires AsNum(n, Key.FadeEndHeight, DefaultSkyDome.fadeEndHeight) == p.fadeEndHeight
    requires AsVec3(n, Key.Tint, DefaultSkyDome.tint) == p.tint
    requires AsVec3(n, Key.CubemapRotation, DefaultSkyDome.cubemapRotation) == p.cubemapRotation
    requires AsVec3(n, Key.CubemapScale, DefaultSkyDome.cubemapScale) == p.cubemapScale
    requires AsVec3(n, Key.CubemapOffset, DefaultSkyDome.cubemapOffset) == p.cubemapOffset
    ensures DecodeSkyDome(n) == p
  {
  }

  /** The switch and atmosphere of an encoded sky dome read back as written. */
  lemma EncodedSkyDomeAtmosphere(p: SkyDomeParams)
    ensures AsBool(EncodeSkyDome(p), Key.Enable, DefaultSkyDome.enabled) == p.enabled
    ensures AsStr(EncodeSkyDome(p), Key.AtmosphereTexture, DefaultSkyDome.atmosphereTextureName) == p.atmosphereTextureName
    ensures AsNum(EncodeSkyDome(p), Key.AtmosphereDensity, DefaultSkyDome.atmosphereDensity) == p.atmosphereDensity
  {
  }

  /** The horizon ring of an encoded sky dome reads back as written. */
  lemma EncodedSkyDomeHorizon(p: SkyDomeParams)
    ensures AsNum(EncodeSkyDome(p), Key.HorizonShift, DefaultSkyDome.horizonShift) == p.horizonShift
    ensures AsNum(EncodeSkyDome(p), Key.HorizonStart, DefaultSkyDome.horizonStart) == p.horizonStart
    ensures AsNum(EncodeSkyDome(p), Key.HorizonBlend, DefaultSkyDome.horizonBlend) == p.horizonBlend
  {
  }

  /** The height fade, tint and cubemap alignment of an encoded sky dome read back as written. */
  lemma EncodedSkyDomeFade(p: SkyDomeParams)
    ensures AsNum(EncodeSkyDome(p), Key.FadeStartHeight, DefaultSkyDome.fadeStartHeight) == p.fadeStartHeight
    ensures AsNum(EncodeSkyDome(p), Key.FadeEndHeight, DefaultSkyDome.fadeEndHeight) == p.fadeEndHeight
    ensures AsVec3(EncodeSkyDome(p), Key.Tint, DefaultSkyDome.tint) == p.tint
    ensures AsVec3(EncodeSkyDome(p), Key.CubemapRotation, DefaultSkyDome.cubemapRotation) == p.cubemapRotation
    ensures AsVec3(EncodeSkyDome(p), Key.CubemapScale, DefaultSkyDome.cubemapScale) == p.cubemapScale
    ensures AsVec3(EncodeSkyDome(p), Key.CubemapOffset, DefaultSkyDome.cubemapOffset) == p.cubemapOffset
  {
  }

  /** An encoded sky dome decodes to itself. */
  lemma SkyDomeRoundTrip(p: SkyDomeParams)
    ensures DecodeSkyDome(EncodeSkyDome(p)) == p
  {
    EncodedSkyDomeAtmosphere(p);
    EncodedSkyDomeHorizon(p);
    EncodedSkyDomeFade(p);
    DecodeSkyDomeFields(EncodeSkyDome(p), p);
  }

  /** A document without sky-dome keys decodes to the defaults. */
  lemma SkyDomeMissingKeys()
    ensures DecodeSkyDome(map[]) == DefaultSkyDome
  {
  }

  /** `Sky_bf3_params`. */
  datatype SkyBf3Params = SkyBf3Params(
    enabled: bool,
    mode: SkyBf3Mode,
    atmosDensity: real,
    horizonShift: real,
    horizonStart: real,
    horizonBlend: real,
    blendStartHeight: real,
    blendEndHeight: real,
    manualBlend: real,
    groundCubemap: string,
    spaceCubemap: string,
    atmosphereCubemap: string,
    cubemapRotation: Vec3,
    cubemapScale: Vec3,
    cubemapOffset: Vec3,
    monochrome: bool,
    useRgbe: bool,
    ambientColor: Vec3,
    tint: Vec3)

  /** `Sky_bf3_params{}`: disabled, atmospheric mode, automatic space blend. */
  const DefaultSkyBf3: SkyBf3Params := SkyBf3Params(
    false,
    Atmospheric,
    0.005,
    0.1,
    0.3,
    0.0,
    500.0,
    2000.0,
    -1.0,
    "",
    "",
    "",
    Vec3(0.0, 0.0, 0.0),
    Vec3(1.0, 1.0, 1.0),
    Vec3(0.0, 0.0, 0.0),
    false,
    false,
    Vec3(1.0, 1.0, 1.0),
    Vec3(1.0, 1.0, 1.0))

  /** `convert<Sky_bf3_params>::encode`: every field, the mode by name. */
  function EncodeSkyBf3(p: SkyBf3Params): Node {
    map[
      Key.Enable := Bool(p.enabled),
      Key.Mode := Str(SkyBf3ModeName(p.mode)),
      Key.AtmosDensity := Num(p.atmosDensity),
      Key.HorizonShift := Num(p.horizonShift),
      Key.HorizonStart := Num(p.horizonStart),
      Key.HorizonBlend := Num(p.horizonBlend),
      Key.BlendStartHeight := Num(p.blendStartHeight),
      Key.BlendEndHeight := Num(p.blendEndHeight),
      Key.ManualBlend := Num(p.manualBlend),
      Key.GroundCubemap := Str(p.groundCubemap),
      Key.SpaceCubemap := Str(p.spaceCubemap),
      Key.AtmosphereCubemap := Str(p.atmosphereCubemap),
      Key.CubemapRotation := Vec3Value(p.cubemapRotation),
      Key.CubemapScale := Vec3Value(p.cubemapScale),
      Key.CubemapOffset := Vec3Value(p.cubemapOffset),
      Key.Monochrome := Bool(p.monochrome),
      Key.UseRGBE := Bool(p.useRgbe),
      Key.AmbientColor := Vec3Value(p.ambientColor),
      Key.Tint := Vec3Value(p.tint)]
  }

  /** `convert<Sky_bf3_params>::decode`: every field read over `Sky_bf3_params{}`, the mode parsed from its name with the default's name as the fallback. */
  function DecodeSkyBf3(n: Node): SkyBf3Params {
    var d := DefaultSkyBf3;
    SkyBf3Params(
      AsBool(n, Key.Enable, d.enabled),
      SkyBf3ModeFromString(AsStr(n, Key.Mode, SkyBf3ModeName(d.mode))),
      AsNum(n, Key.AtmosDensity, d.atmosDensity),
      AsNum(n, Key.HorizonShift, d.horizonShift),
      AsNum(n, Key.HorizonStart, d.horizonStart),
      AsNum(n, Key.HorizonBlend, d.horizonBlend),
      AsNum(n, Key.BlendStartHeight, d.blendStartHeight),
      AsNum(n, Key.BlendEndHeight, d.blendEndHeight),
      AsNum(n, Key.ManualBlend, d.manualBlend),
      AsStr(n, Key.GroundCubemap, d.groundCubemap),
      AsStr(n, Key.SpaceCubemap, d.spaceCubemap),
      AsStr(n, Key.AtmosphereCubemap, d.atmosphereCubemap),
      AsVec3(n, Key.CubemapRotation, d.cubemapRotation),
      AsVec3(n, Key.CubemapScale, d.cubemapScale),
      AsVec3(n, Key.CubemapOffset, d.cubemapOffset),
      AsBool(n, Key.Monochrome, d.monochrome),
      AsBool(n, Key.UseRGBE, d.useRgbe),
      AsVec3(n, Key.AmbientColor, d.ambientColor),
      AsVec3(n, Key.Tint, d.tint))
  }

  /** Decoded parameters are determined by what each of their keys reads as. */
  lemma DecodeSkyBf3Fields(n: Node, p: SkyBf3Params)
    requires AsBool(n, Key.Enable, DefaultSkyBf3.enabled) == p.enabled
    requires SkyBf3ModeFromString(AsStr(n, Key.Mode, SkyBf3ModeName(DefaultSkyBf3.mode))) == p.mode
    requires AsNum(n, Key.AtmosDensity, DefaultSkyBf3.atmosDensity) == p.atmosDensity
    requires AsNum(n, Key.HorizonShift, DefaultSkyBf3.horizonShift) == p.horizonShift
    requires AsNum(n, Key.HorizonStart, DefaultSkyBf3.horizonStart) == p.horizonStart
    requires AsNum(n, Key.HorizonBlend, DefaultSkyBf3.horizonBlend) == p.horizonBlend
    requires AsNum(n, Key.BlendStartHeight, DefaultSkyBf3.blendStartHeight) == p.blendStartHeight
    requires AsNum(n, Key.BlendEndHeight, DefaultSkyBf3.blendEndHeight) == p.blendEndHeight
    requires AsNum(n, Key.ManualBlend, DefaultSkyBf3.manualBlend) == p.manualBlend
    requires AsStr(n, Key.GroundCubemap, DefaultSkyBf3.groundCubemap) == p.groundCubemap
    requires AsStr(n, Key.SpaceCubemap, DefaultSkyBf3.spaceCubemap) == p.spaceCubemap
    requires AsStr(n, Key.AtmosphereCubemap, DefaultSkyBf3.atmosphereCubemap) == p.atmosphereCubemap
    requires AsVec3(n, Key.CubemapRotation, DefaultSkyBf3.cubemapRotation) == p.cubemapRotation
    requires AsVec3(n, Key.CubemapScale, DefaultSkyBf3.cubemapScale) == p.cubemapScale
    requires AsVec3(n, Key.CubemapOffset, DefaultSkyBf3.cubemapOffset) == p.cubemapOffset
    requires AsBool(n, Key.Monochrome, DefaultSkyBf3.monochrome) == p.monochrome
    requires AsBool(n, Key.UseRGBE, DefaultSkyBf3.useRgbe) == p.useRgbe
    requires AsVec3(n, Key.AmbientColor, DefaultSkyBf3.ambientColor) == p.ambientColor
    requires AsVec3(n, Key.Tint, DefaultSkyBf3.tint) == p.tint
    ensures DecodeSkyBf3(n) == p
  {
  }

  /** The switch of an encoded BF3 sky reads back as written. */
  lemma EncodedSkyBf3Enabled(p: SkyBf3Params)
    ensures AsBool(EncodeSkyBf3(p), Key.Enable, DefaultSkyBf3.enabled) == p.enabled
  {
  }

  /** The mode of an encoded BF3 sky reads back as written. */
  lemma EncodedSkyBf3Mode(p: SkyBf3Params)
    ensures SkyBf3ModeFromString(AsStr(EncodeSkyBf3(p), Key.Mode, SkyBf3ModeName(DefaultSkyBf3.mode))) == p.mode
  {
    EnumRoundTrips(p.mode, Filmic, BloomBlended, Ambient, Assao);
  }

  /** The atmosphere density and horizon shift of an encoded BF3 sky read back as written. */
  lemma EncodedSkyBf3Atmosphere(p: SkyBf3Params)
    ensures AsNum(EncodeSkyBf3(p), Key.AtmosDensity, DefaultSkyBf3.atmosDensity) == p.atmosDensity
    ensures AsNum(EncodeSkyBf3(p), Key.HorizonShift, DefaultSkyBf3.horizonShift) == p.horizonShift
  {
  }

  /** The horizon start and blend of an encoded BF3 sky read back as written. */
  lemma EncodedSkyBf3Horizon(p: SkyBf3Params)
    ensures AsNum(EncodeSkyBf3(p), Key.HorizonStart, DefaultSkyBf3.horizonStart) == p.horizonStart
    ensures AsNum(EncodeSkyBf3(p), Key.HorizonBlend, DefaultSkyBf3.horizonBlend) == p.horizonBlend
  {
  }

  /** The space blend of an encoded BF3 sky reads back as written. */
  lemma EncodedSkyBf3SpaceBlend(p: SkyBf3Params)
    ensures AsNum(EncodeSkyBf3(p), Key.BlendStartHeight, DefaultSkyBf3.blendStartHeight) == p.blendStartHeight
    ensures AsNum(EncodeSkyBf3(p), Key.BlendEndHeight, DefaultSkyBf3.blendEndHeight) == p.blendEndHeight
    ensures AsNum(EncodeSkyBf3(p), Key.ManualBlend, DefaultSkyBf3.manualBlend) == p.manualBlend
  {
  }

  /** The cubemap names of an encoded BF3 sky read back as written. */
  lemma EncodedSkyBf3Cubemaps(p: SkyBf3Params)
    ensures AsStr(EncodeSkyBf3(p), Key.GroundCubemap, DefaultSkyBf3.groundCubemap) == p.groundCubemap
    ensures AsStr(EncodeSkyBf3(p), Key.SpaceCubemap, DefaultSkyBf3.spaceCubemap) == p.spaceCubemap
    ensures AsStr(EncodeSkyBf3(p), Key.AtmosphereCubemap, DefaultSkyBf3.atmosphereCubemap) == p.atmosphereCubemap
  {
  }

  /** The cubemap alignment and visual options of an encoded BF3 sky read back as written. */
  lemma EncodedSkyBf3Look(p: SkyBf3Params)
    ensures AsVec3(EncodeSkyBf3(p), Key.CubemapRotation, DefaultSkyBf3.cubemapRotation) == p.cubemapRotation
    ensures AsVec3(EncodeSkyBf3(p), Key.CubemapScale, DefaultSkyBf3.cubemapScale) == p.cubemapScale
    ensures AsVec3(EncodeSkyBf3(p), Key.CubemapOffset, DefaultSkyBf3.cubemapOffset) == p.cubemapOffset
    ensures AsBool(EncodeSkyBf3(p), Key.Monochrome, DefaultSkyBf3.monochrome) == p.monochrome
    ensures AsBool(EncodeSkyBf3(p), Key.UseRGBE, DefaultSkyBf3.useRgbe) == p.useRgbe
    ensures AsVec3(EncodeSkyBf3(p), Key.AmbientColor, DefaultSkyBf3.ambientColor) == p.ambientColor
    ensures AsVec3(EncodeSkyBf3(p), Key.Tint, DefaultSkyBf3.tint) == p.tint
  {
  }

  /** An encoded BF3 sky decodes to itself. */
  lemma SkyBf3RoundTrip(p: SkyBf3Params)
    ensures DecodeSkyBf3(EncodeSkyBf3(p)) == p
  {
    EncodedSkyBf3Enabled(p);
    EncodedSkyBf3Mode(p);
    EncodedSkyBf3Atmosphere(p);
    EncodedSkyBf3Horizon(p);
    EncodedSkyBf3SpaceBlend(p);
    EncodedSkyBf3Cubemaps(p);
    EncodedSkyBf3Look(p);
    DecodeSkyBf3Fields(EncodeSkyBf3(p), p);
  }

  /** A document without BF3 sky keys decodes to the defaults. */
  lemma SkyBf3MissingKeys()
    ensures DecodeSkyBf3(map[]) == DefaultSkyBf3
  {
  }

  /** A mode name that names no mode gives atmospheric mode. */
  lemma SkyBf3UnknownMode(n: Node, s: string)
    requires forall m :: SkyBf3ModeName(m) != s
    ensures DecodeSkyBf3(n[Key.Mode := Str(s)]).mode == Atmospheric
  {
  }
}
