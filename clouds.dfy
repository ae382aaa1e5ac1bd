/**
 * The three-layer cloud effect: its parameters and their YAML codec, the
 * fog boost the fog pass reads while the camera is inside a layer, the
 * packing of the parameters into the constant buffer, and the frame's
 * early exits and draw.
 *
 * `glm::inverse(projection * view)` is matrix arithmetic and is the
 * `inverseViewProjection` parameter of the packing.
 */
module Clouds {
  import opened Gpu
  import opened Numeric
  import opened Wrappers
  import opened Yaml

  /** `Cloud_layer`: one cloud layer and how it thickens the fog. */
  datatype Layer = Layer(
    enabled: bool,
    height: real,
    thickness: real,
    scale: real,
    density: real,
    scrollSpeed: real,
    scrollAngle: real,
    curvature: real,
    cloudThreshold: real,
    cloudSoftness: real,
    sunColorInfluence: real,
    colorLit: Vec3,
    colorDark: Vec3,
    lightingWrap: real,
    cloudBrightness: real,
    minBrightness: real,
    octaveWeights: Vec4,
    octaveBlend: Vec4,
    useNormalLighting: bool,
    fogBoostMax: real)

  /** `Cloud_layer{}`: the member defaults. */
  const DefaultLayer: Layer := Layer(
    true, 500.0, 50.0, 0.0003, 0.8, 0.01, 45.0, 0.0,
    0.4, 0.3, 0.5, Vec3(1.0, 1.0, 1.0), Vec3(0.6, 0.65, 0.7), 0.3, 1.0, 0.3,
    Vec4(0.5, 0.3, 0.15, 0.05), Vec4(0.5, 0.5, 0.5, 0.5), false, 1.0)

  /** The fixed three layers of `Cloud_params`. */
  type Layers = s: seq<Layer> | |s| == 3 witness [DefaultLayer, DefaultLayer, DefaultLayer]

  /** `Cloud_params` of the three-layer effect. */
  datatype Params = Params(
    enabled: bool,
    layers: Layers,
    horizonFadeStart: real,
    horizonFadeEnd: real,
    distanceFadeStart: real,
    distanceFadeEnd: real,
    nearFadeStart: real,
    nearFadeEnd: real,
    globalFogBoostScale: real,
    curvatureCenter: Vec2)

  /** The preset low, dense layer. */
  const LowLayer: Layer := Layer(
    true, 300.0, 60.0, 0.0003, 0.9, 0.01, 45.0, 0.0,
    0.4, 0.3, 0.5, Vec3(1.0, 1.0, 1.0), Vec3(0.6, 0.65, 0.7), 0.3, 1.0, 0.3,
    Vec4(0.5, 0.3, 0.15, 0.05), Vec4(0.5, 0.5, 0.5, 0.5), false, 1.0)

  /** The preset mid layer. */
  const MidLayer: Layer := Layer(
    true, 500.0, 50.0, 0.0004, 0.7, 0.015, 50.0, 0.0,
    0.45, 0.35, 0.5, Vec3(1.0, 1.0, 1.0), Vec3(0.65, 0.7, 0.75), 0.35, 1.0, 0.35,
    Vec4(0.4, 0.35, 0.2, 0.05), Vec4(0.5, 0.5, 0.5, 0.5), false, 0.6)

  /** The preset high, wispy layer. */
  const HighLayer: Layer := Layer(
    true, 800.0, 40.0, 0.0005, 0.5, 0.02, 55.0, 0.0,
    0.5, 0.4, 0.5, Vec3(1.0, 1.0, 1.0), Vec3(0.7, 0.75, 0.8), 0.4, 1.0, 0.4,
    Vec4(0.3, 0.3, 0.25, 0.15), Vec4(0.5, 0.5, 0.5, 0.5), false, 0.3)

  /** `Cloud_params{}`. */
  const DefaultParams: Params := Params(
    false, [LowLayer, MidLayer, HighLayer],
    0.15, 0.02, 8000.0, 15000.0, 100.0, 10.0, 1.0, Vec2(0.0, 0.0))

  /** The default is switched off, over three enabled layers at rising heights. */
  lemma DefaultParamsShape()
    ensures !DefaultParams.enabled
    ensures forall i :: 0 <= i < 3 ==> DefaultParams.layers[i].enabled
    ensures DefaultParams.layers[0].height == 300.0
    ensures DefaultParams.layers[1].height == 500.0
    ensures DefaultParams.layers[2].height == 800.0
  {
  }

  // ---------------------------------------------------------------------
  // The YAML codec

  /** `convert<Cloud_layer>::encode`. */
  function EncodeLayer(l: Layer): Node {
    map[
      Key.Enable := Bool(l.enabled),
      Key.Height := Num(l.height),
      Key.Thickness := Num(l.thickness),
      Key.Scale := Num(l.scale),
      Key.Density := Num(l.density),
      Key.ScrollSpeed := Num(l.scrollSpeed),
      Key.ScrollAngle := Num(l.scrollAngle),
      Key.Curvature := Num(l.curvature),
      Key.Threshold := Num(l.cloudThreshold),
      Key.Softness := Num(l.cloudSoftness),
      Key.SunColorInfluence := Num(l.sunColorInfluence),
      Key.ColorLit := Vec3Value(l.colorLit),
      Key.ColorDark := Vec3Value(l.colorDark),
      Key.LightingWrap := Num(l.lightingWrap),
      Key.CloudBrightness := Num(l.cloudBrightness),
      Key.MinBrightness := Num(l.minBrightness),
      Key.OctaveWeights := Vec4Value(l.octaveWeights),
      Key.OctaveBlend := Vec4Value(l.octaveBlend),
      Key.UseNormalLighting := Bool(l.useNormalLighting),
      Key.FogBoostMax := Num(l.fogBoostMax)]
  }

  /** `convert<Cloud_layer>::decode`: every field read over `Cloud_layer{}`. */
  function DecodeLayer(n: Node): Layer {
    var d := DefaultLayer;
    Layer(
      AsBool(n, Key.Enable, d.enabled),
      AsNum(n, Key.Height, d.height),
      AsNum(n, Key.Thickness, d.thickness),
      AsNum(n, Key.Scale, d.scale),
      AsNum(n, Key.Density, d.density),
      AsNum(n, Key.ScrollSpeed, d.scrollSpeed),
      AsNum(n, Key.ScrollAngle, d.scrollAngle),
      AsNum(n, Key.Curvature, d.curvature),
      AsNum(n, Key.Threshold, d.cloudThreshold),
      AsNum(n, Key.Softness, d.cloudSoftness),
      AsNum(n, Key.SunColorInfluence, d.sunColorInfluence),
      AsVec3(n, Key.ColorLit, d.colorLit),
      AsVec3(n, Key.ColorDark, d.colorDark),
      AsNum(n, Key.LightingWrap, d.lightingWrap),
      AsNum(n, Key.CloudBrightness, d.cloudBrightness),
      AsNum(n, Key.MinBrightness, d.minBrightness),
      AsVec4(n, Key.OctaveWeights, d.octaveWeights),
      AsVec4(n, Key.OctaveBlend, d.octaveBlend),
      AsBool(n, Key.UseNormalLighting, d.useNormalLighting),
      AsNum(n, Key.FogBoostMax, d.fogBoostMax))
  }

  /** A decoded layer is determined by what each of its twenty keys reads as. */
  lemma DecodeLayerFields(n: Node, l: Layer)
    requires AsBool(n, Key.Enable, DefaultLayer.enabled) == l.enabled
    requires AsNum(n, Key.Height, DefaultLayer.height) == l.height
    requires AsNum(n, Key.Thickness, DefaultLayer.thickness) == l.thickness
    requires AsNum(n, Key.Scale, DefaultLayer.scale) == l.scale
    requires AsNum(n, Key.Density, DefaultLayer.density) == l.density
    requires AsNum(n, Key.ScrollSpeed, DefaultLayer.scrollSpeed) == l.scrollSpeed
    requires AsNum(n, Key.ScrollAngle, DefaultLayer.scrollAngle) == l.scrollAngle
    requires AsNum(n, Key.Curvature, DefaultLayer.curvature) == l.curvature
    requires AsNum(n, Key.Threshold, DefaultLayer.cloudThreshold) == l.cloudThreshold
    requires AsNum(n, Key.Softness, DefaultLayer.cloudSoftness) == l.cloudSoftness
    requires AsNum(n, Key.SunColorInfluence, DefaultLayer.sunColorInfluence) == l.sunColorInfluence
    requires AsVec3(n, Key.ColorLit, DefaultLayer.colorLit) == l.colorLit
    requires AsVec3(n, Key.ColorDark, DefaultLayer.colorDark) == l.colorDark
    requires AsNum(n, Key.LightingWrap, DefaultLayer.lightingWrap) == l.lightingWrap
    requires AsNum(n, Key.CloudBrightness, DefaultLayer.cloudBrightness) == l.cloudBrightness
    requires AsNum(n, Key.MinBrightness, DefaultLayer.minBrightness) == l.minBrightness
    requires AsVec4(n, Key.OctaveWeights, DefaultLayer.octaveWeights) == l.octaveWeights
    requires AsVec4(n, Key.OctaveBlend, DefaultLayer.octaveBlend) == l.octaveBlend
    requires AsBool(n, Key.UseNormalLighting, DefaultLayer.useNormalLighting) == l.useNormalLighting
    requires AsNum(n, Key.FogBoostMax, DefaultLayer.fogBoostMax) == l.fogBoostMax
    ensures DecodeLayer(n) == l
  {
  }

  /** The shape and extent keys of an encoded layer read back as written. */
  lemma EncodedLayerShape(l: Layer)
    ensures AsBool(EncodeLayer(l), Key.Enable, DefaultLayer.enabled) == l.enabled
    ensures AsNum(EncodeLayer(l), Key.Height, DefaultLayer.height) == l.height
    ensures AsNum(EncodeLayer(l), Key.Thickness, DefaultLayer.thickness) == l.thickness
    ensures AsNum(EncodeLayer(l), Key.Scale, DefaultLayer.scale) == l.scale
    ensures AsNum(EncodeLayer(l), Key.Density, DefaultLayer.density) == l.density
  {
  }

  /** The motion and edge keys of an encoded layer read back as written. */
  lemma EncodedLayerMotion(l: Layer)
    ensures AsNum(EncodeLayer(l), Key.ScrollSpeed, DefaultLayer.scrollSpeed) == l.scrollSpeed
    ensures AsNum(EncodeLayer(l), Key.ScrollAngle, DefaultLayer.scrollAngle) == l.scrollAngle
    ensures AsNum(EncodeLayer(l), Key.Curvature, DefaultLayer.curvature) == l.curvature
    ensures AsNum(EncodeLayer(l), Key.Threshold, DefaultLayer.cloudThreshold) == l.cloudThreshold
    ensures AsNum(EncodeLayer(l), Key.Softness, DefaultLayer.cloudSoftness) == l.cloudSoftness
  {
  }

  /** The lighting keys of an encoded layer read back as written. */
  lemma EncodedLayerLighting(l: Layer)
    ensures AsNum(EncodeLayer(l), Key.SunColorInfluence, DefaultLayer.sunColorInfluence) == l.sunColorInfluence
    ensures AsNum(EncodeLayer(l), Key.LightingWrap, DefaultLayer.lightingWrap) == l.lightingWrap
    ensures AsNum(EncodeLayer(l), Key.CloudBrightness, DefaultLayer.cloudBrightness) == l.cloudBrightness
    ensures AsNum(EncodeLayer(l), Key.MinBrightness, DefaultLayer.minBrightness) == l.minBrightness
    ensures AsBool(EncodeLayer(l), Key.UseNormalLighting, DefaultLayer.useNormalLighting) == l.useNormalLighting
    ensures AsNum(EncodeLayer(l), Key.FogBoostMax, DefaultLayer.fogBoostMax) == l.fogBoostMax
  {
  }

  /** The colour and octave vectors of an encoded layer read back as written. */
  lemma EncodedLayerVectors(l: Layer)
    ensures AsVec3(EncodeLayer(l), Key.ColorLit, DefaultLayer.colorLit) == l.colorLit
    ensures AsVec3(EncodeLayer(l), Key.ColorDark, DefaultLayer.colorDark) == l.colorDark
    ensures AsVec4(EncodeLayer(l), Key.OctaveWeights, DefaultLayer.octaveWeights) == l.octaveWeights
    ensures AsVec4(EncodeLayer(l), Key.OctaveBlend, DefaultLayer.octaveBlend) == l.octaveBlend
  {
  }

  /** Decoding an encoded layer gives the layer back, field for field. */
  lemma LayerRoundTrip(l: Layer)
    ensures DecodeLayer(EncodeLayer(l)) == l
  {
    EncodedLayerShape(l);
    EncodedLayerMotion(l);
    EncodedLayerLighting(l);
    EncodedLayerVectors(l);
    DecodeLayerFields(EncodeLayer(l), l);
  }

  /** A layer node without keys decodes to `Cloud_layer{}`. */
  lemma DecodeLayerEmpty()
    ensures DecodeLayer(map[]) == DefaultLayer
  {
  }

  /**
   * `node[k].as<Cloud_layer>(fallback)`: the fallback only when k is
   * missing; any value stored at k is decoded afresh, a value that is not
   * a mapping reading as a node without keys.
   */
  function LayerAt(n: Node, k: Key, fallback: Layer): Layer {
    if k in n then DecodeLayer(SectionFields(n, k)) else fallback
  }

  /** `convert<Cloud_params>::encode`: the layers under `Layer0` to `Layer2`. */
  function EncodeParams(p: Params): Node {
    map[
      Key.Enable := Bool(p.enabled),
      Key.GlobalFogBoostScale := Num(p.globalFogBoostScale),
      Key.Layer0 := Map(EncodeLayer(p.layers[0])),
      Key.Layer1 := Map(EncodeLayer(p.layers[1])),
      Key.Layer2 := Map(EncodeLayer(p.layers[2])),
      Key.HorizonFadeStart := Num(p.horizonFadeStart),
      Key.HorizonFadeEnd := Num(p.horizonFadeEnd),
      Key.DistanceFadeStart := Num(p.distanceFadeStart),
      Key.DistanceFadeEnd := Num(p.distanceFadeEnd),
      Key.NearFadeStart := Num(p.nearFadeStart),
      Key.NearFadeEnd := Num(p.nearFadeEnd),
      Key.CurvatureCenter := Vec2Value(p.curvatureCenter)]
  }

  /** `convert<Cloud_params>::decode`: every field read over `Cloud_params{}`. */
  function DecodeParams(n: Node): Params {
    var d := DefaultParams;
    Params(
      AsBool(n, Key.Enable, d.enabled),
      [LayerAt(n, Key.Layer0, d.layers[0]), LayerAt(n, Key.Layer1, d.layers[1]), LayerAt(n, Key.Layer2, d.layers[2])],
      AsNum(n, Key.HorizonFadeStart, d.horizonFadeStart),
      AsNum(n, Key.HorizonFadeEnd, d.horizonFadeEnd),
      AsNum(n, Key.DistanceFadeStart, d.distanceFadeStart),
      AsNum(n, Key.DistanceFadeEnd, d.distanceFadeEnd),
      AsNum(n, Key.NearFadeStart, d.nearFadeStart),
      AsNum(n, Key.NearFadeEnd, d.nearFadeEnd),
      AsNum(n, Key.GlobalFogBoostScale, d.globalFogBoostScale),
      AsVec2(n, Key.CurvatureCenter, d.curvatureCenter))
  }

  /** Decoded parameters are determined by what each of their keys reads as. */
  lemma DecodeParamsFields(n: Node, p: Params)
    requires AsBool(n, Key.Enable, DefaultParams.enabled) == p.enabled
    requires LayerAt(n, Key.Layer0, DefaultParams.layers[0]) == p.layers[0]
    requires LayerAt(n, Key.Layer1, DefaultParams.layers[1]) == p.layers[1]
    requires LayerAt(n, Key.Layer2, DefaultParams.layers[2]) == p.layers[2]
    requires AsNum(n, Key.HorizonFadeStart, DefaultParams.horizonFadeStart) == p.horizonFadeStart
    requires AsNum(n, Key.HorizonFadeEnd, DefaultParams.horizonFadeEnd) == p.horizonFadeEnd
    requires AsNum(n, Key.DistanceFadeStart, DefaultParams.distanceFadeStart) == p.distanceFadeStart
    requires AsNum(n, Key.DistanceFadeEnd, DefaultParams.distanceFadeEnd) == p.distanceFadeEnd
    requires AsNum(n, Key.NearFadeStart, DefaultParams.nearFadeStart) == p.nearFadeStart
    requires AsNum(n, Key.NearFadeEnd, DefaultParams.nearFadeEnd) == p.nearFadeEnd
    requires AsNum(n, Key.GlobalFogBoostScale, DefaultParams.globalFogBoostScale) == p.globalFogBoostScale
    requires AsVec2(n, Key.CurvatureCenter, DefaultParams.curvatureCenter) == p.curvatureCenter
    ensures DecodeParams(n) == p
  {
    assert [p.layers[0], p.layers[1], p.layers[2]] == p.layers;
  }

  /** The layer mappings of encoded parameters decode to the layers. */
  lemma EncodedParamsLayers(p: Params)
    ensures LayerAt(EncodeParams(p), Key.Layer0, DefaultParams.layers[0]) == p.layers[0]
    ensures LayerAt(EncodeParams(p), Key.Layer1, DefaultParams.layers[1]) == p.layers[1]
    ensures LayerAt(EncodeParams(p), Key.Layer2, DefaultParams.layers[2]) == p.layers[2]
  {
    var n := EncodeParams(p);
    assert SectionFields(n, Key.Layer0) == EncodeLayer(p.layers[0]);
    assert SectionFields(n, Key.Layer1) == EncodeLayer(p.layers[1]);
    assert SectionFields(n, Key.Layer2) == EncodeLayer(p.layers[2]);
    LayerRoundTrip(p.layers[0]);
    LayerRoundTrip(p.layers[1]);
    LayerRoundTrip(p.layers[2]);
  }

  /** The scalar and vector keys of encoded parameters read back as written. */
  lemma EncodedParamsScalars(p: Params)
    ensures AsBool(EncodeParams(p), Key.Enable, DefaultParams.enabled) == p.enabled
    ensures AsNum(EncodeParams(p), Key.HorizonFadeStart, DefaultParams.horizonFadeStart) == p.horizonFadeStart
    ensures AsNum(EncodeParams(p), Key.HorizonFadeEnd, DefaultParams.horizonFadeEnd) == p.horizonFadeEnd
    ensures AsNum(EncodeParams(p), Key.DistanceFadeStart, DefaultParams.distanceFadeStart) == p.distanceFadeStart
    ensures AsNum(EncodeParams(p), Key.DistanceFadeEnd, DefaultParams.distanceFadeEnd) == p.distanceFadeEnd
    ensures AsNum(EncodeParams(p), Key.NearFadeStart, DefaultParams.nearFadeStart) == p.nearFadeStart
    ensures AsNum(EncodeParams(p), Key.NearFadeEnd, DefaultParams.nearFadeEnd) == p.nearFadeEnd
    ensures AsNum(EncodeParams(p), Key.GlobalFogBoostScale, DefaultParams.globalFogBoostScale) == p.globalFogBoostScale
    ensures AsVec2(EncodeParams(p), Key.CurvatureCenter, DefaultParams.curvatureCenter) == p.curvatureCenter
  {
  }

  /** Decoding encoded parameters gives them back, all three layers included. */
  lemma ParamsRoundTrip(p: Params)
    ensures DecodeParams(EncodeParams(p)) == p
  {
    EncodedParamsLayers(p);
    EncodedParamsScalars(p);
    DecodeParamsFields(EncodeParams(p), p);
  }

  /**
   * An absent `LayerN` keeps its preset, but a present one is decoded over
   * `Cloud_layer{}`: a mapping from its keys, and a list, or a mapping
   * without keys, gives the member defaults in place of the preset.
   */
  lemma LayerKeyPresence(n: Node, i: nat)
    requires i < 3
    ensures var k := [Key.Layer0, Key.Layer1, Key.Layer2][i];
            && (k !in n ==> DecodeParams(n).layers[i] == DefaultParams.layers[i])
            && (k in n && n[k].Map? ==> DecodeParams(n).layers[i] == DecodeLayer(n[k].fields))
            && (k in n && (n[k].List? || n[k] == Map(map[])) ==> DecodeParams(n).layers[i] == DefaultLayer)
    ensures DecodeParams(map[Key.Layer0 := Map(map[])]).layers[0] != DefaultParams.layers[0]
    ensures DecodeParams(map[Key.Layer0 := List([])]).layers[0] != DefaultParams.layers[0]
  {
    DecodeLayerEmpty();
  }

  // ---------------------------------------------------------------------
  // Fog boost

  /**
   * What one layer adds to the fog at camera height y: nothing when it is
   * disabled, has no boost, or the camera is outside its vertical extent;
   * otherwise its maximum boost scaled by how deep the camera is inside.
   */
  function Contribution(l: Layer, y: real): Option<real> {
    if !l.enabled || l.fogBoostMax <= 0.0 then None
    else
      var half := l.thickness * 0.5;
      var dist := Abs(y - l.height);
      if dist < half then Some((1.0 - dist / half) * l.fogBoostMax) else None
  }

  /** Scaling by a factor in [0, 1] keeps a nonnegative value at or below itself. */
  lemma ScaleAtMost(f: real, m: real)
    requires 0.0 <= f <= 1.0 && m >= 0.0
    ensures 0.0 <= f * m <= m
  {
    assert m - f * m == (1.0 - f) * m;
  }

  /** Multiplying by a nonnegative factor keeps the order. */
  lemma ScaleMonotone(a: real, b: real, s: real)
    requires a <= b && s >= 0.0
    ensures a * s <= b * s
  {
    assert b * s - a * s == (b - a) * s;
  }

  /** Multiplying by a positive factor keeps the strict order. */
  lemma ScaleStrict(a: real, b: real, s: real)
    requires a < b && s > 0.0
    ensures a * s < b * s
  {
    assert b * s - a * s == (b - a) * s;
  }

  /** A distance below a positive extent is a fraction of it in [0, 1). */
  lemma RatioRange(d: real, h: real)
    requires 0.0 <= d < h
    ensures 0.0 <= d / h < 1.0
  {
    var q := d / h;
    assert q * h == d;
    if q < 0.0 {
      ScaleStrict(q, 0.0, h);
    }
    if q >= 1.0 {
      ScaleMonotone(1.0, q, h);
    }
  }

  /**
   * A layer contributes exactly when it is enabled, has a positive boost
   * and the camera is strictly within half its thickness of its height;
   * then the penetration is in (0, 1] and the boost in (0, fog_boost_max].
   */
  lemma ContributionBounds(l: Layer, y: real)
    ensures Contribution(l, y).Some? <==>
              l.enabled && l.fogBoostMax > 0.0 && Abs(y - l.height) < l.thickness * 0.5
    ensures Contribution(l, y).Some? ==>
              var half := l.thickness * 0.5;
              var pen := 1.0 - Abs(y - l.height) / half;
              && half > 0.0
              && 0.0 < pen <= 1.0
              && 0.0 < Contribution(l, y).value <= l.fogBoostMax
  {
    if Contribution(l, y).Some? {
      var half := l.thickness * 0.5;
      var dist := Abs(y - l.height);
      var q := dist / half;
      RatioRange(dist, half);
      ScaleAtMost(1.0 - q, l.fogBoostMax);
      ScaleStrict(0.0, 1.0 - q, l.fogBoostMax);
    }
  }

  /** `std::max(acc, b)` when the layer contributes b; acc otherwise. */
  function Step(acc: real, c: Option<real>): real {
    match c
    case None => acc
    case Some(b) => MaxReal(acc, b)
  }

  /** The running maximum over the layers, from 0, as the loop of `calculate_fog_boost` keeps it. */
  function MaxBoost(layers: seq<Layer>, y: real): real {
    if layers == [] then 0.0
    else Step(MaxBoost(layers[..|layers| - 1], y), Contribution(layers[|layers| - 1], y))
  }

  /** Extending the layers by one more folds that layer's contribution into the maximum. */
  lemma MaxBoostStep(layers: seq<Layer>, i: nat, y: real)
    requires i < |layers|
    ensures MaxBoost(layers[..i + 1], y) == Step(MaxBoost(layers[..i], y), Contribution(layers[i], y))
  {
    assert layers[..i + 1][..i] == layers[..i];
  }

  /**
   * The running maximum is at least 0 and every contribution, and it is
   * either 0 or one of the contributions: the largest one.
   */
  lemma {:induction false} MaxBoostIsMaximum(layers: seq<Layer>, y: real)
    ensures MaxBoost(layers, y) >= 0.0
    ensures forall i :: 0 <= i < |layers| && Contribution(layers[i], y).Some? ==>
              Contribution(layers[i], y).value <= MaxBoost(layers, y)
    ensures MaxBoost(layers, y) == 0.0 ||
              exists i :: 0 <= i < |layers| && Contribution(layers[i], y) == Some(MaxBoost(layers, y))
  {
    if layers != [] {
      var front := layers[..|layers| - 1];
      MaxBoostIsMaximum(front, y);
      assert forall i :: 0 <= i < |front| ==> front[i] == layers[i];
    }
  }

  /** `calculate_fog_boost`: 0 when disabled, else the maximum contribution times the global scale. */
  function FogBoost(p: Params, y: real): real {
    if !p.enabled then 0.0 else MaxBoost(p.layers, y) * p.globalFogBoostScale
  }

  /** A camera outside every layer, or in none that counts, gets no boost. */
  lemma NoContributionNoBoost(p: Params, y: real)
    requires forall i :: 0 <= i < 3 ==> Contribution(p.layers[i], y).None?
    ensures FogBoost(p, y) == 0.0
  {
    MaxBoostIsMaximum(p.layers, y);
  }

  /** The running maximum is at least 0, and at most any nonnegative bound on the layers' maxima. */
  lemma {:induction false} MaxBoostRange(layers: seq<Layer>, y: real, bound: real)
    requires forall i :: 0 <= i < |layers| ==> layers[i].fogBoostMax <= bound
    ensures 0.0 <= MaxBoost(layers, y)
    ensures bound >= 0.0 ==> MaxBoost(layers, y) <= bound
  {
    if layers != [] {
      var front := layers[..|layers| - 1];
      assert forall i :: 0 <= i < |front| ==> front[i] == layers[i];
      MaxBoostRange(front, y, bound);
      ContributionBounds(layers[|layers| - 1], y);
    }
  }

  /** A value in [0, bound] scaled by a nonnegative factor stays in [0, bound times the factor]. */
  lemma ScaledRange(r: real, s: real, bound: real)
    requires 0.0 <= r && s >= 0.0
    requires bound >= 0.0 ==> r <= bound
    ensures 0.0 <= r * s
    ensures bound >= 0.0 ==> r * s <= bound * s
  {
    ScaleMonotone(0.0, r, s);
    if bound >= 0.0 {
      ScaleMonotone(r, bound, s);
    }
  }

  /** The boost never exceeds the largest layer maximum times the scale, nor goes below 0. */
  lemma FogBoostBounds(p: Params, y: real, bound: real)
    requires p.globalFogBoostScale >= 0.0
    requires forall i :: 0 <= i < 3 ==> p.layers[i].fogBoostMax <= bound
    ensures 0.0 <= FogBoost(p, y)
    ensures bound >= 0.0 ==> FogBoost(p, y) <= bound * p.globalFogBoostScale
  {
    if p.enabled {
      MaxBoostRange(p.layers, y, bound);
      ScaledRange(MaxBoost(p.layers, y), p.globalFogBoostScale, bound);
    }
  }

  /** The boost inside a single contributing layer when the others do not count. */
  lemma SingleLayerBoost(p: Params, y: real, i: nat)
    requires i < 3 && p.enabled
    requires Contribution(p.layers[i], y).Some?
    requires forall j :: 0 <= j < 3 && j != i ==> Contribution(p.layers[j], y).None?
    ensures FogBoost(p, y) == Contribution(p.layers[i], y).value * p.globalFogBoostScale
  {
    ContributionBounds(p.layers[i], y);
    MaxBoostIsMaximum(p.layers, y);
  }

  // ---------------------------------------------------------------------
  // Constant buffer

  /** `Gpu_cloud_layer`. */
  datatype GpuLayer = GpuLayer(
    height: real,
    thickness: real,
    scale: real,
    density: real,
    scrollSpeed: real,
    scrollAngle: real,
    fogBoostMax: real,
    curvature: real,
    cloudThreshold: real,
    cloudSoftness: real,
    sunColorInfluence: real,
    lightingWrap: real,
    colorLit: Vec3,
    cloudBrightness: real,
    colorDark: Vec3,
    minBrightness: real,
    octaveWeights: Vec4,
    octaveBlend: Vec4,
    useNormalLighting: real)

  /** The effect's `Constants`. */
  datatype Constants = Constants(
    inverseViewProjection: Mat4,
    cameraPosition: Vec3,
    time: real,
    sunDirection: Vec3,
    horizonFadeStart: real,
    sunColor: Vec3,
    horizonFadeEnd: real,
    distanceFadeStart: real,
    distanceFadeEnd: real,
    nearFadeStart: real,
    nearFadeEnd: real,
    curvatureCenter: Vec2,
    layers: seq<GpuLayer>)

  /** `Cloud_input`: the frame's camera, sun, viewport and depth views. */
  datatype Input = Input(
    view: Mat4,
    projection: Mat4,
    cameraPosition: Vec3,
    sunDirection: Vec3,
    sunColor: Vec3,
    time: real,
    width: nat,
    height: nat,
    depthNear: Handle,
    depthFar: Handle)

  /** One layer of `pack_constants`: a disabled layer gets density 0, the lighting flag becomes 1 or 0. */
  function PackLayer(l: Layer): GpuLayer {
    GpuLayer(
      l.height, l.thickness, l.scale, if l.enabled then l.density else 0.0,
      l.scrollSpeed, l.scrollAngle, l.fogBoostMax, l.curvature,
      l.cloudThreshold, l.cloudSoftness, l.sunColorInfluence, l.lightingWrap,
      l.colorLit, l.cloudBrightness, l.colorDark, l.minBrightness,
      l.octaveWeights, l.octaveBlend, if l.useNormalLighting then 1.0 else 0.0)
  }

  /** The layer a shader sees in a packed layer: an enabled one with the packed density. */
  function UnpackLayer(g: GpuLayer): Layer {
    Layer(
      true, g.height, g.thickness, g.scale, g.density,
      g.scrollSpeed, g.scrollAngle, g.curvature,
      g.cloudThreshold, g.cloudSoftness, g.sunColorInfluence, g.colorLit, g.colorDark,
      g.lightingWrap, g.cloudBrightness, g.minBrightness,
      g.octaveWeights, g.octaveBlend, g.useNormalLighting == 1.0, g.fogBoostMax)
  }

  /**
   * Packing keeps every field of an enabled layer; a disabled layer packs
   * exactly as the same layer enabled with density 0 would, and its own
   * density is lost.
   */
  lemma PackLayerInverse(l: Layer)
    ensures l.enabled ==> UnpackLayer(PackLayer(l)) == l
    ensures !l.enabled ==> PackLayer(l) == PackLayer(l.(enabled := true, density := 0.0))
    ensures !l.enabled ==> PackLayer(l) == PackLayer(l.(density := 1.0))
    ensures PackLayer(l).useNormalLighting == 1.0 || PackLayer(l).useNormalLighting == 0.0
  {
  }

  /** `pack_constants`: the frame inputs, the shared fades and the three packed layers. */
  function PackConstants(p: Params, input: Input, inverseViewProjection: Mat4): (cb: Constants)
    ensures |cb.layers| == 3
  {
    Constants(
      inverseViewProjection, input.cameraPosition, input.time,
      input.sunDirection, p.horizonFadeStart,
      input.sunColor, p.horizonFadeEnd,
      p.distanceFadeStart, p.distanceFadeEnd, p.nearFadeStart, p.nearFadeEnd,
      p.curvatureCenter,
      [PackLayer(p.layers[0]), PackLayer(p.layers[1]), PackLayer(p.layers[2])])
  }

  /** Each packed layer is its parameter layer packed; switching a layer off only zeroes its density. */
  lemma PackConstantsLayers(p: Params, input: Input, inv: Mat4, i: nat)
    requires i < 3
    ensures PackConstants(p, input, inv).layers[i] == PackLayer(p.layers[i])
    ensures p.layers[i].enabled ==> UnpackLayer(PackConstants(p, input, inv).layers[i]) == p.layers[i]
    ensures !p.layers[i].enabled ==> PackConstants(p, input, inv).layers[i].density == 0.0
  {
    PackLayerInverse(p.layers[i]);
  }

  // ---------------------------------------------------------------------
  // The frame

  const CloudsVS: string := "postprocess.main_vs"
  const CloudsPS: string := "clouds.main_ps"
  const PremultipliedBlend: string := "premultiplied"
  const CloudsCB: string := "clouds"
  const OctavesName: string := "_SP_BUILTIN_cloud_octaves"
  const PerlinName: string := "_SP_BUILTIN_perlin"

  /** The octave texture lookup: `cloud_octaves`, else `perlin`. */
  function OctaveFallback(textures: map<string, Handle>): (h: Handle)
    ensures h != Null <==> Lookup(textures, OctavesName) != Null || Lookup(textures, PerlinName) != Null
    ensures Lookup(textures, OctavesName) != Null ==> h == Lookup(textures, OctavesName)
  {
    var octaves := Lookup(textures, OctavesName);
    if octaves != Null then octaves else Lookup(textures, PerlinName)
  }

  /** The calls of a frame that has its octave texture, after the constant upload. */
  function DrawTrace(input: Input, octaves: Handle, outputRtv: Handle, noDepthState: Handle): seq<Event> {
    [
      SetVertexShader(CloudsVS),
      SetPixelShader(CloudsPS),
      BindConstantBuffer(Pixel, 0, CloudsCB),
      BindSRVs(Pixel, 0, [octaves, input.depthNear, input.depthFar]),
      SetRenderTargets([outputRtv], Null),
      SetBlendState(PremultipliedBlend),
      SetDepthStencilState(noDepthState, 0),
      Draw(3)
    ]
  }

  /** A drawn frame issues one draw, into the output target, after binding the three views. */
  lemma DrawTraceShape(input: Input, octaves: Handle, outputRtv: Handle, noDepthState: Handle)
    ensures Draws([WriteConstants(CloudsCB)] + DrawTrace(input, octaves, outputRtv, noDepthState)) == 1
    ensures BoundTargets([WriteConstants(CloudsCB)] + DrawTrace(input, octaves, outputRtv, noDepthState)) == [outputRtv]
  {
    var t := [WriteConstants(CloudsCB)] + DrawTrace(input, octaves, outputRtv, noDepthState);
    DrawsLastOnly(t);
    assert t == [WriteConstants(CloudsCB)] + DrawTrace(input, octaves, outputRtv, noDepthState)[..4]
                + [SetRenderTargets([outputRtv], Null)] + [SetBlendState(PremultipliedBlend), SetDepthStencilState(noDepthState, 0), Draw(3)];
    BoundTargetsAfter([WriteConstants(CloudsCB)] + DrawTrace(input, octaves, outputRtv, noDepthState)[..4],
                      SetRenderTargets([outputRtv], Null),
                      [SetBlendState(PremultipliedBlend), SetDepthStencilState(noDepthState, 0), Draw(3)]);
  }

  /** `Clouds`: the parameters, the uploaded constants and the cached octave texture. */
  class Clouds {
    var params: Params
    var constants: Constants
    var octavesSrv: Handle
    const noDepthState: Handle

    /** `Clouds(device, shaders)`: default parameters, no texture yet. */
    constructor (noDepthState: Handle)
      ensures params == DefaultParams && octavesSrv == Null && this.noDepthState == noDepthState
    {
      params := DefaultParams;
      constants := PackConstants(DefaultParams, Input(Identity, Identity, Vec3(0.0, 0.0, 0.0), Vec3(0.0, 0.0, 0.0),
                                                      Vec3(0.0, 0.0, 0.0), 0.0, 0, 0, Null, Null), Identity);
      octavesSrv := Null;
      this.noDepthState := noDepthState;
    }

    /** `params(p)`: stores the parameters and nothing else. */
    method SetParams(p: Params)
      modifies this`params
      ensures params == p
    {
      params := p;
    }

    /** `params()`. */
    function GetParams(): Params
      reads this
    {
      params
    }

    /** `calculate_fog_boost(camera_y)`: the running maximum over the three layers. */
    method CalculateFogBoost(cameraY: real) returns (boost: real)
      ensures boost == FogBoost(params, cameraY)
    {
      if !params.enabled {
        return 0.0;
      }
      var layers := params.layers;
      var maxBoost := 0.0;
      for i := 0 to 3
        invariant maxBoost == MaxBoost(layers[..i], cameraY)
      {
        MaxBoostStep(layers, i, cameraY);
        match Contribution(layers[i], cameraY)
        case Some(layerBoost) => maxBoost := MaxReal(maxBoost, layerBoost);
        case None =>
      }
      assert layers[..3] == layers;
      boost := maxBoost * params.globalFogBoostScale;
    }

    /**
     * `render`: nothing when disabled. Otherwise the constants are packed
     * and uploaded first; the octave texture is looked up once (octaves,
     * then perlin) and kept; without it the frame ends after the upload,
     * and with it the fullscreen triangle is drawn.
     */
    method Render(textures: map<string, Handle>, outputRtv: Handle, input: Input, inverseViewProjection: Mat4)
      returns (trace: seq<Event>)
      modifies this`constants, this`octavesSrv
      ensures !params.enabled ==> trace == [] && unchanged(this)
      ensures params.enabled ==> constants == PackConstants(params, input, inverseViewProjection)
      ensures params.enabled ==>
                octavesSrv == if old(octavesSrv) != Null then old(octavesSrv) else OctaveFallback(textures)
      ensures params.enabled && octavesSrv == Null ==> trace == [WriteConstants(CloudsCB)]
      ensures params.enabled && octavesSrv != Null ==>
                trace == [WriteConstants(CloudsCB)] + DrawTrace(input, octavesSrv, outputRtv, noDepthState)
    {
      trace := [];
      if !params.enabled {
        return;
      }
      constants := PackConstants(params, input, inverseViewProjection);
      trace := [WriteConstants(CloudsCB)];
      if octavesSrv == Null {
        octavesSrv := Lookup(textures, OctavesName);
        if octavesSrv == Null {
          octavesSrv := Lookup(textures, PerlinName);
        }
      }
      if octavesSrv == Null {
        return;
      }
      trace := trace + DrawTrace(input, octavesSrv, outputRtv, noDepthState);
    }
  }
}
