/**
 * The bloom parameters and their YAML codec.
 *
 * The codec does not round-trip: the decoder reads the blend factor only
 * in blended mode, the threshold and the dirt scale only in threshold
 * mode, and falls back to threshold mode and an intensity of 0.75 where
 * the struct defaults are blended mode and 1.0.
 */
module PostprocessBloom {
  import opened Gpu
  import opened Yaml
  import opened PostprocessParams

  /** `Bloom_params`. */
  datatype BloomParams = BloomParams(
    enabled: bool,
    mode: BloomMode,
    threshold: real,
    blendFactor: real,
    intensity: real,
    tint: Vec3,
    innerScale: real,
    innerTint: Vec3,
    innerMidScale: real,
    innerMidTint: Vec3,
    midScale: real,
    midTint: Vec3,
    outerMidScale: real,
    outerMidTint: Vec3,
    outerScale: real,
    outerTint: Vec3,
    useDirt: bool,
    dirtScale: real,
    dirtTint: Vec3,
    dirtTextureName: string)

  const White: Vec3 := Vec3(1.0, 1.0, 1.0)

  /** `Bloom_params{}`: enabled, blended, every band at unit scale and white. */
  const DefaultBloom: BloomParams := BloomParams(
    true, BloomBlended, 1.0, 0.05, 1.0, White,
    1.0, White, 1.0, White, 1.0, White, 1.0, White, 1.0, White,
    false, 1.0, White, "")

  /** The intensity the decoder falls back to when `Intensity` is missing. */
  const MissingIntensity: real := 0.75

  /**
   * `node[k][0..2].as<float>(fallback)` when `node[k]` can be subscripted:
   * each component read from its own element of a sequence, the
   * fallback's component where that element is missing or not a number.
   * When k is missing or holds a scalar the subscript throws instead
   * (`DecodeBloomThrows`).
   */
  function TintAt(n: Node, k: Key, fallback: Vec3): Vec3 {
    Vec3(AsElement(n, k, 0, fallback.x), AsElement(n, k, 1, fallback.y), AsElement(n, k, 2, fallback.z))
  }

  /**
   * `convert<Bloom_params>::decode` throws on the first of its seven tint
   * reads whose key is missing or holds a scalar, so it returns only for
   * a mapping that holds all seven.
   */
  predicate DecodeBloomThrows(n: Node) {
    || SubscriptThrows(n, Key.Tint) || SubscriptThrows(n, Key.InnerTint) || SubscriptThrows(n, Key.InnerMidTint)
    || SubscriptThrows(n, Key.MidTint) || SubscriptThrows(n, Key.OuterMidTint) || SubscriptThrows(n, Key.OuterTint)
    || SubscriptThrows(n, Key.DirtTint)
  }

  /** `convert<Bloom_params>::encode`: every field, each tint as three pushed numbers. */
  function EncodeBloom(p: BloomParams): Node {
    map[
      Key.Enable := Bool(p.enabled),
      Key.Mode := Str(BloomModeName(p.mode)),
      Key.BlendFactor := Num(p.blendFactor),
      Key.Threshold := Num(p.threshold),
      Key.Intensity := Num(p.intensity),
      Key.Tint := Vec3Value(p.tint),
      Key.InnerScale := Num(p.innerScale),
      Key.InnerTint := Vec3Value(p.innerTint),
      Key.InnerMidScale := Num(p.innerMidScale),
      Key.InnerMidTint := Vec3Value(p.innerMidTint),
      Key.MidScale := Num(p.midScale),
      Key.MidTint := Vec3Value(p.midTint),
      Key.OuterMidScale := Num(p.outerMidScale),
      Key.OuterMidTint := Vec3Value(p.outerMidTint),
      Key.OuterScale := Num(p.outerScale),
      Key.OuterTint := Vec3Value(p.outerTint),
      Key.UseDirt := Bool(p.useDirt),
      Key.DirtScale := Num(p.dirtScale),
      Key.DirtTint := Vec3Value(p.dirtTint),
      Key.DirtTextureName := Str(p.dirtTextureName)]
  }

  /** The mode the decoder settles on: the named mode, threshold mode when `Mode` is missing. */
  function DecodedMode(n: Node): BloomMode {
    EnumAt(n, Key.Mode, BloomThreshold, BloomModeFromString)
  }

  /**
   * `convert<Bloom_params>::decode`: over `Bloom_params{}`, reading the
   * blend factor only in blended mode and the threshold and dirt scale only
   * in threshold mode.
   */
  function DecodeBloom(n: Node): BloomParams {
    // The result when the decoder returns, that is when !DecodeBloomThrows(n).
    var d := DefaultBloom;
    var mode := DecodedMode(n);
    BloomParams(
      AsBool(n, Key.Enable, d.enabled),
      mode,
      if mode == BloomBlended then d.threshold else AsNum(n, Key.Threshold, d.threshold),
      if mode == BloomBlended then AsNum(n, Key.BlendFactor, d.blendFactor) else d.blendFactor,
      AsNum(n, Key.Intensity, MissingIntensity),
      TintAt(n, Key.Tint, d.tint),
      AsNum(n, Key.InnerScale, d.innerScale),
      TintAt(n, Key.InnerTint, d.innerTint),
      AsNum(n, Key.InnerMidScale, d.innerMidScale),
      TintAt(n, Key.InnerMidTint, d.innerMidTint),
      AsNum(n, Key.MidScale, d.midScale),
      TintAt(n, Key.MidTint, d.midTint),
      AsNum(n, Key.OuterMidScale, d.outerMidScale),
      TintAt(n, Key.OuterMidTint, d.outerMidTint),
      AsNum(n, Key.OuterScale, d.outerScale),
      TintAt(n, Key.OuterTint, d.outerTint),
      AsBool(n, Key.UseDirt, d.useDirt),
      if mode == BloomThreshold then AsNum(n, Key.DirtScale, d.dirtScale) else d.dirtScale,
      TintAt(n, Key.DirtTint, d.dirtTint),
      AsStr(n, Key.DirtTextureName, d.dirtTextureName))
  }

  /** Decoded bloom parameters are determined by the mode and what each key reads as. */
  lemma DecodeBloomFields(n: Node, p: BloomParams)
    requires AsBool(n, Key.Enable, DefaultBloom.enabled) == p.enabled
    requires DecodedMode(n) == p.mode
    requires p.mode == BloomThreshold ==> AsNum(n, Key.Threshold, DefaultBloom.threshold) == p.threshold
    requires p.mode == BloomBlended ==> p.threshold == DefaultBloom.threshold
    requires p.mode == BloomBlended ==> AsNum(n, Key.BlendFactor, DefaultBloom.blendFactor) == p.blendFactor
    requires p.mode == BloomThreshold ==> p.blendFactor == DefaultBloom.blendFactor
    requires AsNum(n, Key.Intensity, MissingIntensity) == p.intensity
    requires TintAt(n, Key.Tint, DefaultBloom.tint) == p.tint
    requires AsNum(n, Key.InnerScale, DefaultBloom.innerScale) == p.innerScale
    requires TintAt(n, Key.InnerTint, DefaultBloom.innerTint) == p.innerTint
    requires AsNum(n, Key.InnerMidScale, DefaultBloom.innerMidScale) == p.innerMidScale
    requires TintAt(n, Key.InnerMidTint, DefaultBloom.innerMidTint) == p.innerMidTint
    requires AsNum(n, Key.MidScale, DefaultBloom.midScale) == p.midScale
    requires TintAt(n, Key.MidTint, DefaultBloom.midTint) == p.midTint
    requires AsNum(n, Key.OuterMidScale, DefaultBloom.outerMidScale) == p.outerMidScale
    requires TintAt(n, Key.OuterMidTint, DefaultBloom.outerMidTint) == p.outerMidTint
    requires AsNum(n, Key.OuterScale, DefaultBloom.outerScale) == p.outerScale
    requires TintAt(n, Key.OuterTint, DefaultBloom.outerTint) == p.outerTint
    requires AsBool(n, Key.UseDirt, DefaultBloom.useDirt) == p.useDirt
    requires p.mode == BloomThreshold ==> AsNum(n, Key.DirtScale, DefaultBloom.dirtScale) == p.dirtScale
    requires p.mode == BloomBlended ==> p.dirtScale == DefaultBloom.dirtScale
    requires TintAt(n, Key.DirtTint, DefaultBloom.dirtTint) == p.dirtTint
    requires AsStr(n, Key.DirtTextureName, DefaultBloom.dirtTextureName) == p.dirtTextureName
    ensures DecodeBloom(n) == p
  {
  }

  /** The mode of encoded parameters reads back as written. */
  lemma EncodedBloomMode(p: BloomParams)
    ensures DecodedMode(EncodeBloom(p)) == p.mode
  {
    EnumRoundTrips(Atmospheric, Filmic, p.mode, Ambient, Assao);
  }

  /** The switches of encoded parameters read back as written. */
  lemma EncodedBloomSwitches(p: BloomParams)
    ensures AsBool(EncodeBloom(p), Key.Enable, DefaultBloom.enabled) == p.enabled
    ensures AsBool(EncodeBloom(p), Key.UseDirt, DefaultBloom.useDirt) == p.useDirt
  {
  }

  /** The mode-dependent numbers and the intensity of encoded parameters read back as written. */
  lemma EncodedBloomLevels(p: BloomParams)
    ensures AsNum(EncodeBloom(p), Key.Threshold, DefaultBloom.threshold) == p.threshold
    ensures AsNum(EncodeBloom(p), Key.BlendFactor, DefaultBloom.blendFactor) == p.blendFactor
    ensures AsNum(EncodeBloom(p), Key.Intensity, MissingIntensity) == p.intensity
  {
  }

  /** The dirt settings of encoded parameters read back as written. */
  lemma EncodedBloomDirt(p: BloomParams)
    ensures AsNum(EncodeBloom(p), Key.DirtScale, DefaultBloom.dirtScale) == p.dirtScale
    ensures TintAt(EncodeBloom(p), Key.DirtTint, DefaultBloom.dirtTint) == p.dirtTint
    ensures AsStr(EncodeBloom(p), Key.DirtTextureName, DefaultBloom.dirtTextureName) == p.dirtTextureName
    ensures TintAt(EncodeBloom(p), Key.Tint, DefaultBloom.tint) == p.tint
  {
  }

  /** The inner band of encoded parameters reads back as written. */
  lemma EncodedBloomInner(p: BloomParams)
    ensures AsNum(EncodeBloom(p), Key.InnerScale, DefaultBloom.innerScale) == p.innerScale
    ensures TintAt(EncodeBloom(p), Key.InnerTint, DefaultBloom.innerTint) == p.innerTint
  {
  }

  /** The inner middle band of encoded parameters reads back as written. */
  lemma EncodedBloomInnerMid(p: BloomParams)
    ensures AsNum(EncodeBloom(p), Key.InnerMidScale, DefaultBloom.innerMidScale) == p.innerMidScale
    ensures TintAt(EncodeBloom(p), Key.InnerMidTint, DefaultBloom.innerMidTint) == p.innerMidTint
  {
  }

  /** The middle band of encoded parameters reads back as written. */
  lemma EncodedBloomMid(p: BloomParams)
    ensures AsNum(EncodeBloom(p), Key.MidScale, DefaultBloom.midScale) == p.midScale
    ensures TintAt(EncodeBloom(p), Key.MidTint, DefaultBloom.midTint) == p.midTint
  {
  }

  /** The outer bands of encoded parameters read back as written. */
  lemma EncodedBloomOuter(p: BloomParams)
    ensures AsNum(EncodeBloom(p), Key.OuterMidScale, DefaultBloom.outerMidScale) == p.outerMidScale
    ensures TintAt(EncodeBloom(p), Key.OuterMidTint, DefaultBloom.outerMidTint) == p.outerMidTint
    ensures AsNum(EncodeBloom(p), Key.OuterScale, DefaultBloom.outerScale) == p.outerScale
    ensures TintAt(EncodeBloom(p), Key.OuterTint, DefaultBloom.outerTint) == p.outerTint
  {
  }

  /** Encoded parameters hold all seven tints as sequences, so decoding them returns. */
  lemma EncodedBloomDecodes(p: BloomParams)
    ensures !DecodeBloomThrows(EncodeBloom(p))
  {
  }

  /**
   * What encoded parameters decode to: in blended mode the threshold and the
   * dirt scale are back at their defaults, in threshold mode the blend
   * factor is; every other field comes back as written.
   */
  lemma BloomRoundTrip(p: BloomParams)
    ensures !DecodeBloomThrows(EncodeBloom(p))
    ensures p.mode == BloomBlended ==>
              DecodeBloom(EncodeBloom(p)) == p.(threshold := DefaultBloom.threshold, dirtScale := DefaultBloom.dirtScale)
    ensures p.mode == BloomThreshold ==>
              DecodeBloom(EncodeBloom(p)) == p.(blendFactor := DefaultBloom.blendFactor)
  {
    var n := EncodeBloom(p);
    EncodedBloomDecodes(p);
    EncodedBloomMode(p);
    EncodedBloomSwitches(p);
    EncodedBloomLevels(p);
    EncodedBloomDirt(p);
    EncodedBloomInner(p);
    EncodedBloomInnerMid(p);
    EncodedBloomMid(p);
    EncodedBloomOuter(p);
    if p.mode == BloomBlended {
      DecodeBloomFields(n, p.(threshold := DefaultBloom.threshold, dirtScale := DefaultBloom.dirtScale));
    } else {
      DecodeBloomFields(n, p.(blendFactor := DefaultBloom.blendFactor));
    }
  }

  /**
   * Bloom parameters survive a round trip exactly when the fields their
   * mode does not read are at their defaults.
   */
  lemma BloomRoundTripExact(p: BloomParams)
    ensures DecodeBloom(EncodeBloom(p)) == p <==>
              if p.mode == BloomBlended then p.threshold == DefaultBloom.threshold && p.dirtScale == DefaultBloom.dirtScale
              else p.blendFactor == DefaultBloom.blendFactor
  {
    BloomRoundTrip(p);
  }

  /** A bloom mapping holding the seven tints, white, and nothing else. */
  const WhiteTints: Node := map[
    Key.Tint := Vec3Value(White), Key.InnerTint := Vec3Value(White), Key.InnerMidTint := Vec3Value(White),
    Key.MidTint := Vec3Value(White), Key.OuterMidTint := Vec3Value(White), Key.OuterTint := Vec3Value(White),
    Key.DirtTint := Vec3Value(White)]

  /**
   * An empty mapping makes the decoder throw at its first tint. Given only
   * the seven tints, it returns threshold mode and an intensity of 0.75,
   * not the struct defaults of blended mode and 1.0.
   */
  lemma BloomMissingKeys()
    ensures DecodeBloomThrows(map[])
    ensures !DecodeBloomThrows(WhiteTints)
    ensures DecodeBloom(WhiteTints) == DefaultBloom.(mode := BloomThreshold, intensity := MissingIntensity)
    ensures DefaultBloom.mode == BloomBlended && DefaultBloom.intensity == 1.0
  {
  }
}
