/**
 * The YAML codecs of the effects configuration for the constant buffers
 * the fog, cloud-layer and cloud-volume effects upload.
 *
 * Unlike the post-process parameter codecs, these write vectors as plain
 * number lists and read them back only from lists long enough, keeping the
 * default otherwise; flags stored as unsigned integers are written as
 * booleans and read back as 1 or 0. Fields the shaders get from the frame
 * (matrices, camera, time) are never written.
 */
module ControlCodecs {
  import opened Gpu
  import opened Yaml
  import opened ConstantBuffers

  /** A boolean stored in a `uint32` constant: 1 or 0. */
  function Flag(b: bool): (r: nat)
    ensures r <= 1 && (r == 1 <==> b)
  {
    if b then 1 else 0
  }

  /**
   * `if (auto c = node[k]) { v = c.as<std::vector<float>>(fallback); if (v.size() >= 3) ... }`:
   * the first three numbers of a list of at least three, `current` when the
   * key is missing or the list (or the fallback read in its place) is shorter.
   */
  function ListVec3(n: Node, k: Key, fallback: seq<real>, current: Vec3): (v: Vec3)
    ensures k !in n ==> v == current
    ensures k in n && n[k].List? && IsNumbers(n[k].items) && |n[k].items| >= 3 ==>
              v == Vec3(n[k].items[0].x, n[k].items[1].x, n[k].items[2].x)
    ensures k in n && n[k].List? && IsNumbers(n[k].items) && |n[k].items| < 3 ==> v == current
  {
    if k !in n then current
    else
      var xs := AsFloats(n, k, fallback);
      if |xs| >= 3 then Vec3(xs[0], xs[1], xs[2]) else current
  }

  /** A list written from a vector reads back as that vector. */
  lemma ListVec3Encoded(n: Node, k: Key, v: Vec3, fallback: seq<real>, current: Vec3)
    requires k in n && n[k] == Vec3Value(v)
    ensures ListVec3(n, k, fallback, current) == v
  {
    assert IsNumbers(n[k].items);
  }

  /** The four-component form of `ListVec3`, for lists of at least four. */
  function ListVec4(n: Node, k: Key, fallback: seq<real>, current: Vec4): (v: Vec4)
    ensures k !in n ==> v == current
    ensures k in n && n[k].List? && IsNumbers(n[k].items) && |n[k].items| >= 4 ==>
              v == Vec4(n[k].items[0].x, n[k].items[1].x, n[k].items[2].x, n[k].items[3].x)
    ensures k in n && n[k].List? && IsNumbers(n[k].items) && |n[k].items| < 4 ==> v == current
  {
    if k !in n then current
    else
      var xs := AsFloats(n, k, fallback);
      if |xs| >= 4 then Vec4(xs[0], xs[1], xs[2], xs[3]) else current
  }

  // The fog constants.

  /** `convert<cb::Fog>::encode`: every configurable constant, the flags as booleans. */
  function EncodeFogConstants(p: Fog): Node {
    map[
      Key.FogColor := Vec4Value(p.fogColor),
      Key.FogStart := Num(p.fogStart),
      Key.FogEnd := Num(p.fogEnd),
      Key.HeightBase := Num(p.heightBase),
      Key.HeightCeiling := Num(p.heightCeiling),
      Key.AtmosDensity := Num(p.atmosDensity),
      Key.FogAlpha := Num(p.fogAlpha),
      Key.BlendAdditive := Bool(p.blendAdditive != 0),
      Key.ApplyToSky := Bool(p.applyToSky != 0),
      Key.HeightFalloff := Num(p.heightFalloff),
      Key.FogImmersion := Num(p.fogImmersion),
      Key.ImmersionStart := Num(p.immersionStart),
      Key.ImmersionEnd := Num(p.immersionEnd),
      Key.ImmersionRange := Num(p.immersionRange),
      Key.HeightFogUseDistanceRange := Bool(p.heightFogUseDistanceRange != 0),
      Key.CeilingFade := Num(p.ceilingFade),
      Key.DiscCenterX := Num(p.fogDiscCenterX),
      Key.DiscCenterZ := Num(p.fogDiscCenterZ),
      Key.DiscRadius := Num(p.fogDiscRadius),
      Key.DiscEdgeFade := Num(p.fogDiscEdgeFade)]
  }

  /** `convert<cb::Fog>::decode`: every configurable constant read over `cb::Fog{}`, the colour only from a list of at least four numbers and each flag normalised to 1 or 0. */
  function DecodeFogConstants(n: Node): Fog {
    var d := DefaultFog;
    ConstantBuffers.Fog(
      d.invViewMatrix,
      ListVec4(n, Key.FogColor, [1.0, 1.0, 1.0, 0.0], d.fogColor),
      AsNum(n, Key.FogStart, d.fogStart),
      AsNum(n, Key.FogEnd, d.fogEnd),
      AsNum(n, Key.HeightBase, d.heightBase),
      AsNum(n, Key.HeightCeiling, d.heightCeiling),
      AsNum(n, Key.AtmosDensity, d.atmosDensity),
      AsNum(n, Key.FogAlpha, d.fogAlpha),
      d.projScaleX,
      d.projScaleY,
      d.cameraPosition,
      d.time,
      Flag(AsBool(n, Key.BlendAdditive, false)),
      Flag(AsBool(n, Key.ApplyToSky, true)),
      d.depthLinearizeParams,
      AsNum(n, Key.HeightFalloff, d.heightFalloff),
      AsNum(n, Key.FogImmersion, d.fogImmersion),
      AsNum(n, Key.ImmersionStart, d.immersionStart),
      AsNum(n, Key.ImmersionEnd, d.immersionEnd),
      AsNum(n, Key.ImmersionRange, d.immersionRange),
      Flag(AsBool(n, Key.HeightFogUseDistanceRange, false)),
      AsNum(n, Key.CeilingFade, d.ceilingFade),
      AsNum(n, Key.DiscCenterX, d.fogDiscCenterX),
      AsNum(n, Key.DiscCenterZ, d.fogDiscCenterZ),
      AsNum(n, Key.DiscRadius, d.fogDiscRadius),
      AsNum(n, Key.DiscEdgeFade, d.fogDiscEdgeFade))
  }

  /** Decoded parameters are determined by what each of their keys reads as. */
  lemma DecodeFogConstantsFields(n: Node, p: Fog)
    requires p.invViewMatrix == DefaultFog.invViewMatrix
    requires ListVec4(n, Key.FogColor, [1.0, 1.0, 1.0, 0.0], DefaultFog.fogColor) == p.fogColor
    requires AsNum(n, Key.FogStart, DefaultFog.fogStart) == p.fogStart
    requires AsNum(n, Key.FogEnd, DefaultFog.fogEnd) == p.fogEnd
    requires AsNum(n, Key.HeightBase, DefaultFog.heightBase) == p.heightBase
    requires AsNum(n, Key.HeightCeiling, DefaultFog.heightCeiling) == p.heightCeiling
    requires AsNum(n, Key.AtmosDensity, DefaultFog.atmosDensity) == p.atmosDensity
    requires AsNum(n, Key.FogAlpha, DefaultFog.fogAlpha) == p.fogAlpha
    requires p.projScaleX == DefaultFog.projScaleX
    requires p.projScaleY == DefaultFog.projScaleY
    requires p.cameraPosition == DefaultFog.cameraPosition
    requires p.time == DefaultFog.time
    requires Flag(AsBool(n, Key.BlendAdditive, false)) == p.blendAdditive
    requires Flag(AsBool(n, Key.ApplyToSky, true)) == p.applyToSky
    requires p.depthLinearizeParams == DefaultFog.depthLinearizeParams
    requires AsNum(n, Key.HeightFalloff, DefaultFog.heightFalloff) == p.heightFalloff
    requires AsNum(n, Key.FogImmersion, DefaultFog.fogImmersion) == p.fogImmersion
    requires AsNum(n, Key.ImmersionStart, DefaultFog.immersionStart) == p.immersionStart
    requires AsNum(n, Key.ImmersionEnd, DefaultFog.immersionEnd) == p.immersionEnd
    requires AsNum(n, Key.ImmersionRange, DefaultFog.immersionRange) == p.immersionRange
    requires Flag(AsBool(n, Key.HeightFogUseDistanceRange, false)) == p.heightFogUseDistanceRange
    requires AsNum(n, Key.CeilingFade, DefaultFog.ceilingFade) == p.ceilingFade
    requires AsNum(n, Key.DiscCenterX, DefaultFog.fogDiscCenterX) == p.fogDiscCenterX
    requires AsNum(n, Key.DiscCenterZ, DefaultFog.fogDiscCenterZ) == p.fogDiscCenterZ
    requires AsNum(n, Key.DiscRadius, DefaultFog.fogDiscRadius) == p.fogDiscRadius
    requires AsNum(n, Key.DiscEdgeFade, DefaultFog.fogDiscEdgeFade) == p.fogDiscEdgeFade
    ensures DecodeFogConstants(n) == p
  {
  }

  /** One field of the encoded fog constants reads back as written. */
  lemma EncodedFogFogColor(p: Fog)
    ensures ListVec4(EncodeFogConstants(p), Key.FogColor, [1.0, 1.0, 1.0, 0.0], DefaultFog.fogColor) == p.fogColor
  {
  }

  /** One field of the encoded fog constants reads back as written. */
  lemma EncodedFogFogStart(p: Fog)
    ensures AsNum(EncodeFogConstants(p), Key.FogStart, DefaultFog.fogStart) == p.fogStart
  {
  }

  /** A run of fields of the encoded fog constants reads back as written. */
  lemma EncodedFogFogEndToHeightBase(p: Fog)
    ensures AsNum(EncodeFogConstants(p), Key.FogEnd, DefaultFog.fogEnd) == p.fogEnd
    ensures AsNum(EncodeFogConstants(p), Key.HeightBase, DefaultFog.heightBase) == p.heightBase
  {
  }

  /** A run of fields of the encoded fog constants reads back as written. */
  lemma EncodedFogHeightCeilingToAtmosDensity(p: Fog)
    ensures AsNum(EncodeFogConstants(p), Key.HeightCeiling, DefaultFog.heightCeiling) == p.heightCeiling
    ensures AsNum(EncodeFogConstants(p), Key.AtmosDensity, DefaultFog.atmosDensity) == p.atmosDensity
  {
  }

  /** A run of fields of the encoded fog constants reads back as written. */
  lemma EncodedFogFogAlphaToBlendAdditive(p: Fog)
    ensures AsNum(EncodeFogConstants(p), Key.FogAlpha, DefaultFog.fogAlpha) == p.fogAlpha
    ensures Flag(AsBool(EncodeFogConstants(p), Key.BlendAdditive, false)) == Flag(p.blendAdditive != 0)
  {
  }

  /** A run of fields of the encoded fog constants reads back as written. */
  lemma EncodedFogApplyToSkyToHeightFalloff(p: Fog)
    ensures Flag(AsBool(EncodeFogConstants(p), Key.ApplyToSky, true)) == Flag(p.applyToSky != 0)
    ensures AsNum(EncodeFogConstants(p), Key.HeightFalloff, DefaultFog.heightFalloff) == p.heightFalloff
  {
  }

  /** A run of fields of the encoded fog constants reads back as written. */
  lemma EncodedFogFogImmersionToImmersionEnd(p: Fog)
    ensures AsNum(EncodeFogConstants(p), Key.FogImmersion, DefaultFog.fogImmersion) == p.fogImmersion
    ensures AsNum(EncodeFogConstants(p), Key.ImmersionStart, DefaultFog.immersionStart) == p.immersionStart
    ensures AsNum(EncodeFogConstants(p), Key.ImmersionEnd, DefaultFog.immersionEnd) == p.immersionEnd
  {
  }

  /** A run of fields of the encoded fog constants reads back as written. */
  lemma EncodedFogImmersionRangeToFogDiscCenterX(p: Fog)
    ensures AsNum(EncodeFogConstants(p), Key.ImmersionRange, DefaultFog.immersionRange) == p.immersionRange
    ensures Flag(AsBool(EncodeFogConstants(p), Key.HeightFogUseDistanceRange, false)) == Flag(p.heightFogUseDistanceRange != 0)
    ensures AsNum(EncodeFogConstants(p), Key.CeilingFade, DefaultFog.ceilingFade) == p.ceilingFade
    ensures AsNum(EncodeFogConstants(p), Key.DiscCenterX, DefaultFog.fogDiscCenterX) == p.fogDiscCenterX
  {
  }

  /** A run of fields of the encoded fog constants reads back as written. */
  lemma EncodedFogFogDiscCenterZToFogDiscEdgeFade(p: Fog)
    ensures AsNum(EncodeFogConstants(p), Key.DiscCenterZ, DefaultFog.fogDiscCenterZ) == p.fogDiscCenterZ
    ensures AsNum(EncodeFogConstants(p), Key.DiscRadius, DefaultFog.fogDiscRadius) == p.fogDiscRadius
    ensures AsNum(EncodeFogConstants(p), Key.DiscEdgeFade, DefaultFog.fogDiscEdgeFade) == p.fogDiscEdgeFade
  {
  }

  /** The fog constants as the codec keeps them: frame fields at their defaults, flags as 1 or 0. */
  function PersistedFogConstants(p: Fog): Fog {
    var d := DefaultFog;
    p.(invViewMatrix := d.invViewMatrix, projScaleX := d.projScaleX, projScaleY := d.projScaleY,
       cameraPosition := d.cameraPosition, time := d.time, depthLinearizeParams := d.depthLinearizeParams,
       blendAdditive := Flag(p.blendAdditive != 0), applyToSky := Flag(p.applyToSky != 0),
       heightFogUseDistanceRange := Flag(p.heightFogUseDistanceRange != 0))
  }

  /**
   * Encoded fog constants decode to their persisted form, so they survive a
   * round trip exactly when that form is themselves.
   */
  lemma FogConstantsRoundTrip(p: Fog)
    ensures DecodeFogConstants(EncodeFogConstants(p)) == PersistedFogConstants(p)
    ensures DecodeFogConstants(EncodeFogConstants(p)) == p <==> p == PersistedFogConstants(p)
  {
    EncodedFogFogColor(p);
    EncodedFogFogStart(p);
    EncodedFogFogEndToHeightBase(p);
    EncodedFogHeightCeilingToAtmosDensity(p);
    EncodedFogFogAlphaToBlendAdditive(p);
    EncodedFogApplyToSkyToHeightFalloff(p);
    EncodedFogFogImmersionToImmersionEnd(p);
    EncodedFogImmersionRangeToFogDiscCenterX(p);
    EncodedFogFogDiscCenterZToFogDiscEdgeFade(p);
    DecodeFogConstantsFields(EncodeFogConstants(p), PersistedFogConstants(p));
  }

  /** Whatever the document holds, the decoded flags are 1 or 0. */
  lemma DecodedFogFlags(n: Node)
    ensures DecodeFogConstants(n).blendAdditive <= 1
    ensures DecodeFogConstants(n).applyToSky <= 1
    ensures DecodeFogConstants(n).heightFogUseDistanceRange <= 1
  {
  }

  /**
   * A fog colour with three components keeps the default colour; one with
   * five takes its first four.
   */
  lemma FogColorNeedsFourComponents(a: real, b: real, c: real, e: real, f: real)
    ensures DecodeFogConstants(map[Key.FogColor := List([Num(a), Num(b), Num(c)])]).fogColor == DefaultFog.fogColor
    ensures DecodeFogConstants(map[Key.FogColor := List([Num(a), Num(b), Num(c), Num(e), Num(f)])]).fogColor
            == Vec4(a, b, c, e)
  {
  }

  // One cloud layer.

  /** `convert<cb::CloudLayerParams>::encode`: every field, the switch as a boolean. */
  function EncodeLayer(p: CloudLayerParams): Node {
    map[
      Key.Enabled := Bool(p.enabled != 0),
      Key.Cover := Num(p.cover),
      Key.Sharpness := Num(p.sharpness),
      Key.Scattering := Num(p.scattering),
      Key.LightColor := Vec3Value(p.lightColor),
      Key.DarkColor := Vec3Value(p.darkColor),
      Key.OctaveWeights0to3 := Vec4Value(p.octaveWeights0to3),
      Key.OctaveWeights4to7 := Vec4Value(p.octaveWeights4to7),
      Key.OctaveEvolFreqs0to3 := Vec4Value(p.octaveEvolFreqs0to3),
      Key.OctaveEvolFreqs4to7 := Vec4Value(p.octaveEvolFreqs4to7),
      Key.Altitude := Num(p.altitude),
      Key.CurvedRadius := Num(p.curvedRadius),
      Key.PlaneSize := Num(p.planeSize),
      Key.TilingScale := Num(p.tilingScale),
      Key.WindSpeed := Num(p.windSpeed),
      Key.WindAngle := Num(p.windAngle),
      Key.HalfHeight := Num(p.halfHeight),
      Key.LightrayStep := Num(p.lightrayStep),
      Key.MaxLighting := Num(p.maxLighting),
      Key.MinLighting := Num(p.minLighting),
      Key.PlaneCenterX := Num(p.planeCenterX),
      Key.PlaneCenterZ := Num(p.planeCenterZ)]
  }

  /** `convert<cb::CloudLayerParams>::decode`: every field read over `CloudLayerParams{}`, each vector only from a list long enough and the switch normalised to 1 or 0. */
  function DecodeLayer(n: Node): CloudLayerParams {
    var d := DefaultLayer;
    CloudLayerParams(
      ListVec3(n, Key.LightColor, [1.0, 0.87, 0.66], d.lightColor),
      AsNum(n, Key.Cover, d.cover),
      ListVec3(n, Key.DarkColor, [0.0, 0.0, 0.0], d.darkColor),
      AsNum(n, Key.Sharpness, d.sharpness),
      ListVec4(n, Key.OctaveWeights0to3, [0.9, 0.4, 0.25, 0.125], d.octaveWeights0to3),
      ListVec4(n, Key.OctaveWeights4to7, [0.08, 0.06, 0.04, 0.02], d.octaveWeights4to7),
      ListVec4(n, Key.OctaveEvolFreqs0to3, [0.005, 0.015, 0.028, 0.05], d.octaveEvolFreqs0to3),
      ListVec4(n, Key.OctaveEvolFreqs4to7, [0.16, 0.32, 0.64, 1.28], d.octaveEvolFreqs4to7),
      AsNum(n, Key.Altitude, d.altitude),
      AsNum(n, Key.CurvedRadius, d.curvedRadius),
      AsNum(n, Key.PlaneSize, d.planeSize),
      AsNum(n, Key.TilingScale, d.tilingScale),
      AsNum(n, Key.WindSpeed, d.windSpeed),
      AsNum(n, Key.WindAngle, d.windAngle),
      AsNum(n, Key.HalfHeight, d.halfHeight),
      AsNum(n, Key.LightrayStep, d.lightrayStep),
      AsNum(n, Key.MaxLighting, d.maxLighting),
      AsNum(n, Key.MinLighting, d.minLighting),
      AsNum(n, Key.Scattering, d.scattering),
      Flag(AsBool(n, Key.Enabled, false)),
      AsNum(n, Key.PlaneCenterX, d.planeCenterX),
      AsNum(n, Key.PlaneCenterZ, d.planeCenterZ))
  }

  /** Decoded parameters are determined by what each of their keys reads as. */
  lemma DecodeLayerFields(n: Node, p: CloudLayerParams)
    requires ListVec3(n, Key.LightColor, [1.0, 0.87, 0.66], DefaultLayer.lightColor) == p.lightColor
    requires AsNum(n, Key.Cover, DefaultLayer.cover) == p.cover
    requires ListVec3(n, Key.DarkColor, [0.0, 0.0, 0.0], DefaultLayer.darkColor) == p.darkColor
    requires AsNum(n, Key.Sharpness, DefaultLayer.sharpness) == p.sharpness
    requires ListVec4(n, Key.OctaveWeights0to3, [0.9, 0.4, 0.25, 0.125], DefaultLayer.octaveWeights0to3) == p.octaveWeights0to3
    requires ListVec4(n, Key.OctaveWeights4to7, [0.08, 0.06, 0.04, 0.02], DefaultLayer.octaveWeights4to7) == p.octaveWeights4to7
    requires ListVec4(n, Key.OctaveEvolFreqs0to3, [0.005, 0.015, 0.028, 0.05], DefaultLayer.octaveEvolFreqs0to3) == p.octaveEvolFreqs0to3
    requires ListVec4(n, Key.OctaveEvolFreqs4to7, [0.16, 0.32, 0.64, 1.28], DefaultLayer.octaveEvolFreqs4to7) == p.octaveEvolFreqs4to7
    requires AsNum(n, Key.Altitude, DefaultLayer.altitude) == p.altitude
    requires AsNum(n, Key.CurvedRadius, DefaultLayer.curvedRadius) == p.curvedRadius
    requires AsNum(n, Key.PlaneSize, DefaultLayer.planeSize) == p.planeSize
    requires AsNum(n, Key.TilingScale, DefaultLayer.tilingScale) == p.tilingScale
    requires AsNum(n, Key.WindSpeed, DefaultLayer.windSpeed) == p.windSpeed
    requires AsNum(n, Key.WindAngle, DefaultLayer.windAngle) == p.windAngle
    requires AsNum(n, Key.HalfHeight, DefaultLayer.halfHeight) == p.halfHeight
    requires AsNum(n, Key.LightrayStep, DefaultLayer.lightrayStep) == p.lightrayStep
    requires AsNum(n, Key.MaxLighting, DefaultLayer.maxLighting) == p.maxLighting
    requires AsNum(n, Key.MinLighting, DefaultLayer.minLighting) == p.minLighting
    requires AsNum(n, Key.Scattering, DefaultLayer.scattering) == p.scattering
    requires Flag(AsBool(n, Key.Enabled, false)) == p.enabled
    requires AsNum(n, Key.PlaneCenterX, DefaultLayer.planeCenterX) == p.planeCenterX
    requires AsNum(n, Key.PlaneCenterZ, DefaultLayer.planeCenterZ) == p.planeCenterZ
    ensures DecodeLayer(n) == p
  {
  }

  /** One field of an encoded cloud layer reads back as written. */
  lemma EncodedLayerEnabled(p: CloudLayerParams)
    ensures Flag(AsBool(EncodeLayer(p), Key.Enabled, false)) == Flag(p.enabled != 0)
  {
  }

  /** One field of an encoded cloud layer reads back as written. */
  lemma EncodedLayerCover(p: CloudLayerParams)
    ensures AsNum(EncodeLayer(p), Key.Cover, DefaultLayer.cover) == p.cover
  {
  }

  /** One field of an encoded cloud layer reads back as written. */
  lemma EncodedLayerSharpness(p: CloudLayerParams)
    ensures AsNum(EncodeLayer(p), Key.Sharpness, DefaultLayer.sharpness) == p.sharpness
  {
  }

  /** One field of an encoded cloud layer reads back as written. */
  lemma EncodedLayerScattering(p: CloudLayerParams)
    ensures AsNum(EncodeLayer(p), Key.Scattering, DefaultLayer.scattering) == p.scattering
  {
  }

  /** A run of fields of an encoded cloud layer reads back as written. */
  lemma EncodedLayerLightColorToDarkColor(p: CloudLayerParams)
    ensures ListVec3(EncodeLayer(p), Key.LightColor, [1.0, 0.87, 0.66], DefaultLayer.lightColor) == p.lightColor
    ensures ListVec3(EncodeLayer(p), Key.DarkColor, [0.0, 0.0, 0.0], DefaultLayer.darkColor) == p.darkColor
  {
  }

  /** A run of fields of an encoded cloud layer reads back as written. */
  lemma EncodedLayerOctaveWeights0to3ToOctaveWeights4to7(p: CloudLayerParams)
    ensures ListVec4(EncodeLayer(p), Key.OctaveWeights0to3, [0.9, 0.4, 0.25, 0.125], DefaultLayer.octaveWeights0to3) == p.octaveWeights0to3
    ensures ListVec4(EncodeLayer(p), Key.OctaveWeights4to7, [0.08, 0.06, 0.04, 0.02], DefaultLayer.octaveWeights4to7) == p.octaveWeights4to7
  {
  }

  /** A run of fields of an encoded cloud layer reads back as written. */
  lemma EncodedLayerOctaveEvolFreqs0to3ToOctaveEvolFreqs4to7(p: CloudLayerParams)
    ensures ListVec4(EncodeLayer(p), Key.OctaveEvolFreqs0to3, [0.005, 0.015, 0.028, 0.05], DefaultLayer.octaveEvolFreqs0to3) == p.octaveEvolFreqs0to3
    ensures ListVec4(EncodeLayer(p), Key.OctaveEvolFreqs4to7, [0.16, 0.32, 0.64, 1.28], DefaultLayer.octaveEvolFreqs4to7) == p.octaveEvolFreqs4to7
  {
  }

  /** A run of fields of an encoded cloud layer reads back as written. */
  lemma EncodedLayerAltitudeToCurvedRadius(p: CloudLayerParams)
    ensures AsNum(EncodeLayer(p), Key.Altitude, DefaultLayer.altitude) == p.altitude
    ensures AsNum(EncodeLayer(p), Key.CurvedRadius, DefaultLayer.curvedRadius) == p.curvedRadius
  {
  }

  /** A run of fields of an encoded cloud layer reads back as written. */
  lemma EncodedLayerPlaneSizeToWindSpeed(p: CloudLayerParams)
    ensures AsNum(EncodeLayer(p), Key.PlaneSize, DefaultLayer.planeSize) == p.planeSize
    ensures AsNum(EncodeLayer(p), Key.TilingScale, DefaultLayer.tilingScale) == p.tilingScale
    ensures AsNum(EncodeLayer(p), Key.WindSpeed, DefaultLayer.windSpeed) == p.windSpeed
  {
  }

  /** A run of fields of an encoded cloud layer reads back as written. */
  lemma EncodedLayerWindAngleToMaxLighting(p: CloudLayerParams)
    ensures AsNum(EncodeLayer(p), Key.WindAngle, DefaultLayer.windAngle) == p.windAngle
    ensures AsNum(EncodeLayer(p), Key.HalfHeight, DefaultLayer.halfHeight) == p.halfHeight
    ensures AsNum(EncodeLayer(p), Key.LightrayStep, DefaultLayer.lightrayStep) == p.lightrayStep
    ensures AsNum(EncodeLayer(p), Key.MaxLighting, DefaultLayer.maxLighting) == p.maxLighting
  {
  }

  /** A run of fields of an encoded cloud layer reads back as written. */
  lemma EncodedLayerMinLightingToPlaneCenterZ(p: CloudLayerParams)
    ensures AsNum(EncodeLayer(p), Key.MinLighting, DefaultLayer.minLighting) == p.minLighting
    ensures AsNum(EncodeLayer(p), Key.PlaneCenterX, DefaultLayer.planeCenterX) == p.planeCenterX
    ensures AsNum(EncodeLayer(p), Key.PlaneCenterZ, DefaultLayer.planeCenterZ) == p.planeCenterZ
  {
  }

  /** A layer with its switch normalised to 1 or 0, as the codec keeps it. */
  function PersistedLayer(p: CloudLayerParams): CloudLayerParams {
    p.(enabled := Flag(p.enabled != 0))
  }

  /** An encoded cloud layer decodes to itself with its switch normalised to 1 or 0. */
  lemma LayerRoundTrip(p: CloudLayerParams)
    ensures DecodeLayer(EncodeLayer(p)) == PersistedLayer(p)
    ensures DecodeLayer(EncodeLayer(p)) == p <==> p.enabled <= 1
  {
    EncodedLayerEnabled(p);
    EncodedLayerCover(p);
    EncodedLayerSharpness(p);
    EncodedLayerScattering(p);
    EncodedLayerLightColorToDarkColor(p);
    EncodedLayerOctaveWeights0to3ToOctaveWeights4to7(p);
    EncodedLayerOctaveEvolFreqs0to3ToOctaveEvolFreqs4to7(p);
    EncodedLayerAltitudeToCurvedRadius(p);
    EncodedLayerPlaneSizeToWindSpeed(p);
    EncodedLayerWindAngleToMaxLighting(p);
    EncodedLayerMinLightingToPlaneCenterZ(p);
    DecodeLayerFields(EncodeLayer(p), PersistedLayer(p));
  }

  // The three-layer buffer.

  /** The `Layers` list of an encoding: one mapping per layer, in order. */
  function LayerItems(layers: LayerTriple): (items: seq<Value>)
    ensures |items| == 3
    ensures forall i :: 0 <= i < 3 ==> items[i] == Map(EncodeLayer(layers[i]))
  {
    [Map(EncodeLayer(layers[0])), Map(EncodeLayer(layers[1])), Map(EncodeLayer(layers[2]))]
  }

  /** `convert<cb::CloudLayers>::encode`: the sun direction and the three layers. */
  function CloudLayersNode(c: CloudLayers): Node {
    map[Key.SunDirection := Vec3Value(c.sunDirection), Key.Layers := List(LayerItems(c.layers))]
  }

  /** One element of `Layers`: a mapping decodes as a layer, anything else as an empty mapping. */
  function ItemLayer(v: Value): CloudLayerParams {
    if v.Map? then DecodeLayer(v.fields) else DecodeLayer(map[])
  }

  /**
   * The elements of `Layers` as the decoder's loop visits them. A list
   * gives its items. A mapping of k pairs bounds the loop by k, and each
   * `layers_node[i]`, taken on a non-const node, finds no key equal to the
   * integer i (every key here is a name) and so inserts an undefined node,
   * which decodes with no keys: min(k, 3) empty mappings. A missing key or
   * a scalar gives none, since a scalar's `size()` is 0.
   */
  function LayerList(n: Node): seq<Value> {
    if Key.Layers !in n then []
    else match n[Key.Layers]
      case List(items) => items
      case Map(fields) => seq(if |fields| < 3 then |fields| else 3, _ => Map(map[]))
      case _ => []
  }

  /** The first three elements of `items` over `base`: later layers keep their presets. */
  function ReadLayers(items: seq<Value>, base: LayerTriple): (r: LayerTriple)
    ensures forall i :: 0 <= i < 3 ==> r[i] == if i < |items| then ItemLayer(items[i]) else base[i]
  {
    seq(3, i requires 0 <= i < 3 => if i < |items| then ItemLayer(items[i]) else base[i])
  }

  /** `convert<cb::CloudLayers>::decode`, over the stratus, cumulus and cirrus presets. */
  function CloudLayersFrom(n: Node): CloudLayers {
    var d := DefaultCloudLayers;
    d.(sunDirection := ListVec3(n, Key.SunDirection, [0.0, -1.0, 0.0], d.sunDirection),
       layers := ReadLayers(LayerList(n), d.layers))
  }

  /** `convert<cb::CloudLayers>::encode`, pushing one layer at a time. */
  method EncodeCloudLayers(c: CloudLayers) returns (n: Node)
    ensures n == CloudLayersNode(c)
  {
    var items: seq<Value> := [];
    for i := 0 to 3
      invariant |items| == i
      invariant forall j :: 0 <= j < i ==> items[j] == Map(EncodeLayer(c.layers[j]))
    {
      items := items + [Map(EncodeLayer(c.layers[i]))];
    }
    assert items == LayerItems(c.layers);
    n := map[Key.SunDirection := Vec3Value(c.sunDirection), Key.Layers := List(items)];
  }

  /**
   * `convert<cb::CloudLayers>::decode`: restarts from the presets and
   * overwrites layer `i` for each `i` below both the list's length and 3.
   */
  method DecodeCloudLayers(n: Node) returns (c: CloudLayers)
    ensures c == CloudLayersFrom(n)
  {
    var d := DefaultCloudLayers;
    c := d.(sunDirection := ListVec3(n, Key.SunDirection, [0.0, -1.0, 0.0], d.sunDirection));
    var items := LayerList(n);
    var i := 0;
    while i < |items| && i < 3
      invariant 0 <= i <= 3 && i <= |items|
      invariant c.(layers := d.layers) == CloudLayersFrom(n).(layers := d.layers)
      invariant forall j :: 0 <= j < 3 ==> c.layers[j] == if j < i then ItemLayer(items[j]) else d.layers[j]
    {
      c := c.(layers := c.layers[i := ItemLayer(items[i])]);
      i := i + 1;
    }
    assert c.layers == ReadLayers(items, d.layers);
  }

  /** The cloud-layer buffer as the codec keeps it: frame fields at their defaults, switches as 1 or 0. */
  function PersistedCloudLayers(c: CloudLayers): CloudLayers {
    var d := DefaultCloudLayers;
    d.(sunDirection := c.sunDirection,
       layers := [PersistedLayer(c.layers[0]), PersistedLayer(c.layers[1]), PersistedLayer(c.layers[2])])
  }

  /** Layer `i` of the encoding reads back in its persisted form. */
  lemma EncodedLayerAt(l: LayerTriple, base: LayerTriple, i: nat)
    requires i < 3
    ensures ReadLayers(LayerItems(l), base)[i] == PersistedLayer(l[i])
  {
    LayerRoundTrip(l[i]);
    assert LayerItems(l)[i] == Map(EncodeLayer(l[i]));
  }

  /** The three encoded layers read back in their persisted form. */
  lemma EncodedLayersRead(l: LayerTriple, base: LayerTriple)
    ensures ReadLayers(LayerItems(l), base) == [PersistedLayer(l[0]), PersistedLayer(l[1]), PersistedLayer(l[2])]
  {
    var r := ReadLayers(LayerItems(l), base);
    var s := [PersistedLayer(l[0]), PersistedLayer(l[1]), PersistedLayer(l[2])];
    EncodedLayerAt(l, base, 0);
    EncodedLayerAt(l, base, 1);
    EncodedLayerAt(l, base, 2);
    SameTriple(r, s);
  }

  /** Two layer triples that agree at every index are equal. */
  lemma SameTriple(r: LayerTriple, s: LayerTriple)
    requires r[0] == s[0] && r[1] == s[1] && r[2] == s[2]
    ensures r == s
  {
    assert forall i | 0 <= i < 3 :: r[i] == s[i];
  }

  /** An encoded cloud-layer buffer decodes to its persisted form. */
  lemma CloudLayersRoundTrip(c: CloudLayers)
    ensures CloudLayersFrom(CloudLayersNode(c)) == PersistedCloudLayers(c)
  {
    var n := CloudLayersNode(c);
    assert LayerList(n) == LayerItems(c.layers);
    EncodedLayersRead(c.layers, DefaultCloudLayers.layers);
    ListVec3Encoded(n, Key.SunDirection, c.sunDirection, [0.0, -1.0, 0.0], DefaultCloudLayers.sunDirection);
    var got := CloudLayersFrom(n);
    assert got.layers == PersistedCloudLayers(c).layers;
    assert got.sunDirection == c.sunDirection;
  }

  /**
   * A `Layers` list of one element sets only the first layer; the second
   * and third keep the cumulus and cirrus presets.
   */
  lemma ShortLayerListKeepsPresets(n: Node, v: Value)
    requires Key.Layers in n && n[Key.Layers] == List([v])
    ensures CloudLayersFrom(n).layers[0] == ItemLayer(v)
    ensures CloudLayersFrom(n).layers[1] == Cumulus
    ensures CloudLayersFrom(n).layers[2] == Cirrus
  {
  }

  /** A layer decoded from no keys is `CloudLayerParams{}`, switched off. */
  lemma DecodeLayerEmpty()
    ensures DecodeLayer(map[]) == DefaultLayer
    ensures DefaultLayer.enabled == 0
  {
  }

  /**
   * A `Layers` mapping of k pairs resets layers 0 to min(k, 3) - 1 to
   * `CloudLayerParams{}` and leaves the others at their presets.
   */
  lemma MappingLayersReset(n: Node)
    requires Key.Layers in n && n[Key.Layers].Map?
    ensures forall i :: 0 <= i < 3 ==>
      CloudLayersFrom(n).layers[i] == if i < |n[Key.Layers].fields| then DefaultLayer else DefaultCloudLayers.layers[i]
  {
    DecodeLayerEmpty();
  }

  /**
   * `Layers: {Enabled: true}` is one pair: layer 0 becomes
   * `CloudLayerParams{}`, switched off and no longer the stratus preset,
   * and layers 1 and 2 keep theirs.
   */
  lemma OnePairLayersMapping()
    ensures var c := CloudLayersFrom(map[Key.Layers := Map(map[Key.Enabled := Bool(true)])]);
      c.layers[0] == DefaultLayer && c.layers[0].enabled == 0 && c.layers[0] != Stratus
      && c.layers[1] == Cumulus && c.layers[2] == Cirrus
  {
    MappingLayersReset(map[Key.Layers := Map(map[Key.Enabled := Bool(true)])]);
  }

  // The cloud-volume buffer.

  /** `convert<cb::CloudVolumes>::encode`: every field. */
  function EncodeVolumes(p: CloudVolumes): Node {
    map[
      Key.AreaMin := Vec3Value(p.areaMin),
      Key.AreaMax := Vec3Value(p.areaMax),
      Key.CloudSizeMin := Vec3Value(p.cloudSizeMin),
      Key.CloudSizeMax := Vec3Value(p.cloudSizeMax),
      Key.LightColor := Vec3Value(p.lightColor),
      Key.DarkColor := Vec3Value(p.darkColor),
      Key.SunDirection := Vec3Value(p.sunDirection),
      Key.CloudCount := Num(p.cloudCount as real),
      Key.Sharpness := Num(p.sharpness),
      Key.LightScattering := Num(p.lightScattering),
      Key.MaxLighting := Num(p.maxLighting),
      Key.MinLighting := Num(p.minLighting),
      Key.NoiseInfluence := Num(p.noiseInfluence),
      Key.NoiseTiling := Num(p.noiseTiling),
      Key.DepthFadeNear := Num(p.depthFadeNear),
      Key.DepthFadeFar := Num(p.depthFadeFar),
      Key.EdgeSoftness := Num(p.edgeSoftness),
      Key.Density := Num(p.density),
      Key.WindSpeed := Num(p.windSpeed),
      Key.WindAngle := Num(p.windAngle),
      Key.EvolutionSpeed := Num(p.evolutionSpeed),
      Key.Seed := Num(p.seed as real)]
  }

  /** `convert<cb::CloudVolumes>::decode`: every field read over `cb::CloudVolumes{}`, each vector only from a list of at least three numbers and the count and seed as 32-bit unsigned integers. */
  function DecodeVolumes(n: Node): CloudVolumes {
    var d := DefaultCloudVolumes;
    ConstantBuffers.CloudVolumes(
      ListVec3(n, Key.AreaMin, [-5000.0, 800.0, -5000.0], d.areaMin),
      AsNum(n, Key.Sharpness, d.sharpness),
      ListVec3(n, Key.AreaMax, [5000.0, 2500.0, 5000.0], d.areaMax),
      AsNum(n, Key.LightScattering, d.lightScattering),
      ListVec3(n, Key.CloudSizeMin, [800.0, 400.0, 800.0], d.cloudSizeMin),
      AsNum(n, Key.MaxLighting, d.maxLighting),
      ListVec3(n, Key.CloudSizeMax, [2000.0, 800.0, 2000.0], d.cloudSizeMax),
      AsNum(n, Key.MinLighting, d.minLighting),
      ListVec3(n, Key.LightColor, [1.0, 0.87, 0.66], d.lightColor),
      AsNum(n, Key.NoiseInfluence, d.noiseInfluence),
      ListVec3(n, Key.DarkColor, [0.2, 0.22, 0.28], d.darkColor),
      AsNum(n, Key.NoiseTiling, d.noiseTiling),
      ListVec3(n, Key.SunDirection, [0.577, -0.577, 0.577], d.sunDirection),
      AsU32(n, Key.CloudCount, d.cloudCount),
      AsNum(n, Key.DepthFadeNear, d.depthFadeNear),
      AsNum(n, Key.DepthFadeFar, d.depthFadeFar),
      AsNum(n, Key.EdgeSoftness, d.edgeSoftness),
      AsNum(n, Key.Density, d.density),
      AsNum(n, Key.WindSpeed, d.windSpeed),
      AsNum(n, Key.WindAngle, d.windAngle),
      AsNum(n, Key.EvolutionSpeed, d.evolutionSpeed),
      AsU32(n, Key.Seed, d.seed))
  }

  /** Decoded parameters are determined by what each of their keys reads as. */
  lemma DecodeVolumesFields(n: Node, p: CloudVolumes)
    requires ListVec3(n, Key.AreaMin, [-5000.0, 800.0, -5000.0], DefaultCloudVolumes.areaMin) == p.areaMin
    requires AsNum(n, Key.Sharpness, DefaultCloudVolumes.sharpness) == p.sharpness
    requires ListVec3(n, Key.AreaMax, [5000.0, 2500.0, 5000.0], DefaultCloudVolumes.areaMax) == p.areaMax
    requires AsNum(n, Key.LightScattering, DefaultCloudVolumes.lightScattering) == p.lightScattering
    requires ListVec3(n, Key.CloudSizeMin, [800.0, 400.0, 800.0], DefaultCloudVolumes.cloudSizeMin) == p.cloudSizeMin
    requires AsNum(n, Key.MaxLighting, DefaultCloudVolumes.maxLighting) == p.maxLighting
    requires ListVec3(n, Key.CloudSizeMax, [2000.0, 800.0, 2000.0], DefaultCloudVolumes.cloudSizeMax) == p.cloudSizeMax
    requires AsNum(n, Key.MinLighting, DefaultCloudVolumes.minLighting) == p.minLighting
    requires ListVec3(n, Key.LightColor, [1.0, 0.87, 0.66], DefaultCloudVolumes.lightColor) == p.lightColor
    requires AsNum(n, Key.NoiseInfluence, DefaultCloudVolumes.noiseInfluence) == p.noiseInfluence
    requires ListVec3(n, Key.DarkColor, [0.2, 0.22, 0.28], DefaultCloudVolumes.darkColor) == p.darkColor
    requires AsNum(n, Key.NoiseTiling, DefaultCloudVolumes.noiseTiling) == p.noiseTiling
    requires ListVec3(n, Key.SunDirection, [0.577, -0.577, 0.577], DefaultCloudVolumes.sunDirection) == p.sunDirection
    requires AsU32(n, Key.CloudCount, DefaultCloudVolumes.cloudCount) == p.cloudCount
    requires AsNum(n, Key.DepthFadeNear, DefaultCloudVolumes.depthFadeNear) == p.depthFadeNear
    requires AsNum(n, Key.DepthFadeFar, DefaultCloudVolumes.depthFadeFar) == p.depthFadeFar
    requires AsNum(n, Key.EdgeSoftness, DefaultCloudVolumes.edgeSoftness) == p.edgeSoftness
    requires AsNum(n, Key.Density, DefaultCloudVolumes.density) == p.density
    requires AsNum(n, Key.WindSpeed, DefaultCloudVolumes.windSpeed) == p.windSpeed
    requires AsNum(n, Key.WindAngle, DefaultCloudVolumes.windAngle) == p.windAngle
    requires AsNum(n, Key.EvolutionSpeed, DefaultCloudVolumes.evolutionSpeed) == p.evolutionSpeed
    requires AsU32(n, Key.Seed, DefaultCloudVolumes.seed) == p.seed
    ensures DecodeVolumes(n) == p
  {
  }

  /** One field of the encoded cloud-volume constants reads back as written. */
  lemma EncodedVolumesAreaMin(p: CloudVolumes)
    ensures ListVec3(EncodeVolumes(p), Key.AreaMin, [-5000.0, 800.0, -5000.0], DefaultCloudVolumes.areaMin) == p.areaMin
  {
  }

  /** One field of the encoded cloud-volume constants reads back as written. */
  lemma EncodedVolumesAreaMax(p: CloudVolumes)
    ensures ListVec3(EncodeVolumes(p), Key.AreaMax, [5000.0, 2500.0, 5000.0], DefaultCloudVolumes.areaMax) == p.areaMax
  {
  }

  /** One field of the encoded cloud-volume constants reads back as written. */
  lemma EncodedVolumesCloudSizeMin(p: CloudVolumes)
    ensures ListVec3(EncodeVolumes(p), Key.CloudSizeMin, [800.0, 400.0, 800.0], DefaultCloudVolumes.cloudSizeMin) == p.cloudSizeMin
  {
  }

  /** One field of the encoded cloud-volume constants reads back as written. */
  lemma EncodedVolumesCloudSizeMax(p: CloudVolumes)
    ensures ListVec3(EncodeVolumes(p), Key.CloudSizeMax, [2000.0, 800.0, 2000.0], DefaultCloudVolumes.cloudSizeMax) == p.cloudSizeMax
  {
  }

  /** A run of fields of the encoded cloud-volume constants reads back as written. */
  lemma EncodedVolumesLightColorToDarkColor(p: CloudVolumes)
    ensures ListVec3(EncodeVolumes(p), Key.LightColor, [1.0, 0.87, 0.66], DefaultCloudVolumes.lightColor) == p.lightColor
    ensures ListVec3(EncodeVolumes(p), Key.DarkColor, [0.2, 0.22, 0.28], DefaultCloudVolumes.darkColor) == p.darkColor
  {
  }

  /** A run of fields of the encoded cloud-volume constants reads back as written. */
  lemma EncodedVolumesSunDirectionToCloudCount(p: CloudVolumes)
    requires p.cloudCount < 0x1_0000_0000
    ensures ListVec3(EncodeVolumes(p), Key.SunDirection, [0.577, -0.577, 0.577], DefaultCloudVolumes.sunDirection) == p.sunDirection
    ensures AsU32(EncodeVolumes(p), Key.CloudCount, DefaultCloudVolumes.cloudCount) == p.cloudCount
  {
  }

  /** A run of fields of the encoded cloud-volume constants reads back as written. */
  lemma EncodedVolumesSharpnessToLightScattering(p: CloudVolumes)
    ensures AsNum(EncodeVolumes(p), Key.Sharpness, DefaultCloudVolumes.sharpness) == p.sharpness
    ensures AsNum(EncodeVolumes(p), Key.LightScattering, DefaultCloudVolumes.lightScattering) == p.lightScattering
  {
  }

  /** A run of fields of the encoded cloud-volume constants reads back as written. */
  lemma EncodedVolumesMaxLightingToMinLighting(p: CloudVolumes)
    ensures AsNum(EncodeVolumes(p), Key.MaxLighting, DefaultCloudVolumes.maxLighting) == p.maxLighting
    ensures AsNum(EncodeVolumes(p), Key.MinLighting, DefaultCloudVolumes.minLighting) == p.minLighting
  {
  }

  /** A run of fields of the encoded cloud-volume constants reads back as written. */
  lemma EncodedVolumesNoiseInfluenceToDepthFadeNear(p: CloudVolumes)
    ensures AsNum(EncodeVolumes(p), Key.NoiseInfluence, DefaultCloudVolumes.noiseInfluence) == p.noiseInfluence
    ensures AsNum(EncodeVolumes(p), Key.NoiseTiling, DefaultCloudVolumes.noiseTiling) == p.noiseTiling
    ensures AsNum(EncodeVolumes(p), Key.DepthFadeNear, DefaultCloudVolumes.depthFadeNear) == p.depthFadeNear
  {
  }

  /** A run of fields of the encoded cloud-volume constants reads back as written. */
  lemma EncodedVolumesDepthFadeFarToWindSpeed(p: CloudVolumes)
    ensures AsNum(EncodeVolumes(p), Key.DepthFadeFar, DefaultCloudVolumes.depthFadeFar) == p.depthFadeFar
    ensures AsNum(EncodeVolumes(p), Key.EdgeSoftness, DefaultCloudVolumes.edgeSoftness) == p.edgeSoftness
    ensures AsNum(EncodeVolumes(p), Key.Density, DefaultCloudVolumes.density) == p.density
    ensures AsNum(EncodeVolumes(p), Key.WindSpeed, DefaultCloudVolumes.windSpeed) == p.windSpeed
  {
  }

  /** A run of fields of the encoded cloud-volume constants reads back as written. */
  lemma EncodedVolumesWindAngleToSeed(p: CloudVolumes)
    requires p.seed < 0x1_0000_0000
    ensures AsNum(EncodeVolumes(p), Key.WindAngle, DefaultCloudVolumes.windAngle) == p.windAngle
    ensures AsNum(EncodeVolumes(p), Key.EvolutionSpeed, DefaultCloudVolumes.evolutionSpeed) == p.evolutionSpeed
    ensures AsU32(EncodeVolumes(p), Key.Seed, DefaultCloudVolumes.seed) == p.seed
  {
  }

  /** Encoded cloud-volume constants decode to themselves. */
  lemma VolumesRoundTrip(p: CloudVolumes)
    requires p.cloudCount < 0x1_0000_0000 && p.seed < 0x1_0000_0000
    ensures DecodeVolumes(EncodeVolumes(p)) == p
  {
    EncodedVolumesAreaMin(p);
    EncodedVolumesAreaMax(p);
    EncodedVolumesCloudSizeMin(p);
    EncodedVolumesCloudSizeMax(p);
    EncodedVolumesLightColorToDarkColor(p);
    EncodedVolumesSunDirectionToCloudCount(p);
    EncodedVolumesSharpnessToLightScattering(p);
    EncodedVolumesMaxLightingToMinLighting(p);
    EncodedVolumesNoiseInfluenceToDepthFadeNear(p);
    EncodedVolumesDepthFadeFarToWindSpeed(p);
    EncodedVolumesWindAngleToSeed(p);
    DecodeVolumesFields(EncodeVolumes(p), p);
  }
}
