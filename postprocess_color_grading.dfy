/**
 * The colour-grading parameters and their YAML codec, which round-trips:
 * every field is written, and read back over the struct defaults.
 */
module PostprocessColorGrading {
  import opened Gpu
  import opened Yaml
  import opened PostprocessParams

  /** `Color_grading_params`. */
  datatype ColorGradingParams = ColorGradingParams(
    colorFilter: Vec3,
    saturation: real,
    exposure: real,
    brightness: real,
    contrast: real,
    tonemapper: Tonemapper,
    filmicToeStrength: real,
    filmicToeLength: real,
    filmicShoulderStrength: real,
    filmicShoulderLength: real,
    filmicShoulderAngle: real,
    filmicHejiWhitepoint: real,
    shadowColor: Vec3,
    midtoneColor: Vec3,
    highlightColor: Vec3,
    shadowOffset: real,
    midtoneOffset: real,
    highlightOffset: real,
    hsvHueAdjustment: real,
    hsvSaturationAdjustment: real,
    hsvValueAdjustment: real,
    channelMixRed: Vec3,
    channelMixGreen: Vec3,
    channelMixBlue: Vec3)

  /** `Color_grading_params{}`: neutral grading through the filmic tonemapper. */
  const DefaultColorGrading: ColorGradingParams := ColorGradingParams(
    Vec3(1.0, 1.0, 1.0), 1.0, 0.0, 1.0, 1.0,
    Filmic,
    0.0, 0.5, 0.0, 0.5, 0.0, 1.0,
    Vec3(1.0, 1.0, 1.0), Vec3(1.0, 1.0, 1.0), Vec3(1.0, 1.0, 1.0),
    0.0, 0.0, 0.0,
    0.0, 1.0, 1.0,
    Vec3(1.0, 0.0, 0.0), Vec3(0.0, 1.0, 0.0), Vec3(0.0, 0.0, 1.0))

  /** `convert<Color_grading_params>::encode`. */
  function EncodeColorGrading(p: ColorGradingParams): Node {
    map[
      Key.ColorFilter := Vec3Value(p.colorFilter),
      Key.Saturation := Num(p.saturation),
      Key.Exposure := Num(p.exposure),
      Key.Brightness := Num(p.brightness),
      Key.Contrast := Num(p.contrast),
      Key.Tonemapper := Str(TonemapperName(p.tonemapper)),
      Key.FilmicToeStrength := Num(p.filmicToeStrength),
      Key.FilmicToeLength := Num(p.filmicToeLength),
      Key.FilmicShoulderStrength := Num(p.filmicShoulderStrength),
      Key.FilmicShoulderLength := Num(p.filmicShoulderLength),
      Key.FilmicShoulderAngle := Num(p.filmicShoulderAngle),
      Key.FilmicHejiWhitepoint := Num(p.filmicHejiWhitepoint),
      Key.ShadowColor := Vec3Value(p.shadowColor),
      Key.MidtoneColor := Vec3Value(p.midtoneColor),
      Key.HighlightColor := Vec3Value(p.highlightColor),
      Key.ShadowOffset := Num(p.shadowOffset),
      Key.MidtoneOffset := Num(p.midtoneOffset),
      Key.HighlightOffset := Num(p.highlightOffset),
      Key.HSVHueAdjustment := Num(p.hsvHueAdjustment),
      Key.HSVSaturationAdjustment := Num(p.hsvSaturationAdjustment),
      Key.HSVValueAdjustment := Num(p.hsvValueAdjustment),
      Key.ChannelMixRed := Vec3Value(p.channelMixRed),
      Key.ChannelMixGreen := Vec3Value(p.channelMixGreen),
      Key.ChannelMixBlue := Vec3Value(p.channelMixBlue)]
  }

  /** `convert<Color_grading_params>::decode`: every field read over `Color_grading_params{}`. */
  function DecodeColorGrading(n: Node): ColorGradingParams {
    var d := DefaultColorGrading;
    ColorGradingParams(
      AsVec3(n, Key.ColorFilter, d.colorFilter),
      AsNum(n, Key.Saturation, d.saturation),
      AsNum(n, Key.Exposure, d.exposure),
      AsNum(n, Key.Brightness, d.brightness),
      AsNum(n, Key.Contrast, d.contrast),
      EnumAt(n, Key.Tonemapper, d.tonemapper, TonemapperFromString),
      AsNum(n, Key.FilmicToeStrength, d.filmicToeStrength),
      AsNum(n, Key.FilmicToeLength, d.filmicToeLength),
      AsNum(n, Key.FilmicShoulderStrength, d.filmicShoulderStrength),
      AsNum(n, Key.FilmicShoulderLength, d.filmicShoulderLength),
      AsNum(n, Key.FilmicShoulderAngle, d.filmicShoulderAngle),
      AsNum(n, Key.FilmicHejiWhitepoint, d.filmicHejiWhitepoint),
      AsVec3(n, Key.ShadowColor, d.shadowColor),
      AsVec3(n, Key.MidtoneColor, d.midtoneColor),
      AsVec3(n, Key.HighlightColor, d.highlightColor),
      AsNum(n, Key.ShadowOffset, d.shadowOffset),
      AsNum(n, Key.MidtoneOffset, d.midtoneOffset),
      AsNum(n, Key.HighlightOffset, d.highlightOffset),
      AsNum(n, Key.HSVHueAdjustment, d.hsvHueAdjustment),
      AsNum(n, Key.HSVSaturationAdjustment, d.hsvSaturationAdjustment),
      AsNum(n, Key.HSVValueAdjustment, d.hsvValueAdjustment),
      AsVec3(n, Key.ChannelMixRed, d.channelMixRed),
      AsVec3(n, Key.ChannelMixGreen, d.channelMixGreen),
      AsVec3(n, Key.ChannelMixBlue, d.channelMixBlue))
  }

  /** Decoded parameters are determined by what each of their keys reads as. */
  lemma DecodeColorGradingFields(n: Node, p: ColorGradingParams)
    requires AsVec3(n, Key.ColorFilter, DefaultColorGrading.colorFilter) == p.colorFilter
    requires AsNum(n, Key.Saturation, DefaultColorGrading.saturation) == p.saturation
    requires AsNum(n, Key.Exposure, DefaultColorGrading.exposure) == p.exposure
    requires AsNum(n, Key.Brightness, DefaultColorGrading.brightness) == p.brightness
    requires AsNum(n, Key.Contrast, DefaultColorGrading.contrast) == p.contrast
    requires EnumAt(n, Key.Tonemapper, DefaultColorGrading.tonemapper, TonemapperFromString) == p.tonemapper
    requires AsNum(n, Key.FilmicToeStrength, DefaultColorGrading.filmicToeStrength) == p.filmicToeStrength
    requires AsNum(n, Key.FilmicToeLength, DefaultColorGrading.filmicToeLength) == p.filmicToeLength
    requires AsNum(n, Key.FilmicShoulderStrength, DefaultColorGrading.filmicShoulderStrength) == p.filmicShoulderStrength
    requires AsNum(n, Key.FilmicShoulderLength, DefaultColorGrading.filmicShoulderLength) == p.filmicShoulderLength
    requires AsNum(n, Key.FilmicShoulderAngle, DefaultColorGrading.filmicShoulderAngle) == p.filmicShoulderAngle
    requires AsNum(n, Key.FilmicHejiWhitepoint, DefaultColorGrading.filmicHejiWhitepoint) == p.filmicHejiWhitepoint
    requires AsVec3(n, Key.ShadowColor, DefaultColorGrading.shadowColor) == p.shadowColor
    requires AsVec3(n, Key.MidtoneColor, DefaultColorGrading.midtoneColor) == p.midtoneColor
    requires AsVec3(n, Key.HighlightColor, DefaultColorGrading.highlightColor) == p.highlightColor
    requires AsNum(n, Key.ShadowOffset, DefaultColorGrading.shadowOffset) == p.shadowOffset
    requires AsNum(n, Key.MidtoneOffset, DefaultColorGrading.midtoneOffset) == p.midtoneOffset
    requires AsNum(n, Key.HighlightOffset, DefaultColorGrading.highlightOffset) == p.highlightOffset
    requires AsNum(n, Key.HSVHueAdjustment, DefaultColorGrading.hsvHueAdjustment) == p.hsvHueAdjustment
    requires AsNum(n, Key.HSVSaturationAdjustment, DefaultColorGrading.hsvSaturationAdjustment) == p.hsvSaturationAdjustment
    requires AsNum(n, Key.HSVValueAdjustment, DefaultColorGrading.hsvValueAdjustment) == p.hsvValueAdjustment
    requires AsVec3(n, Key.ChannelMixRed, DefaultColorGrading.channelMixRed) == p.channelMixRed
    requires AsVec3(n, Key.ChannelMixGreen, DefaultColorGrading.channelMixGreen) == p.channelMixGreen
    requires AsVec3(n, Key.ChannelMixBlue, DefaultColorGrading.channelMixBlue) == p.channelMixBlue
    ensures DecodeColorGrading(n) == p
  {
  }

  /** The colour filter of encoded parameters reads back as written. */
  lemma EncodedColorFilter(p: ColorGradingParams)
    ensures AsVec3(EncodeColorGrading(p), Key.ColorFilter, DefaultColorGrading.colorFilter) == p.colorFilter
  {
  }

  /** The saturation and exposure of encoded parameters read back as written. */
  lemma EncodedSaturationExposure(p: ColorGradingParams)
    ensures AsNum(EncodeColorGrading(p), Key.Saturation, DefaultColorGrading.saturation) == p.saturation
    ensures AsNum(EncodeColorGrading(p), Key.Exposure, DefaultColorGrading.exposure) == p.exposure
  {
  }

  /** The brightness and contrast of encoded parameters read back as written. */
  lemma EncodedBrightnessContrast(p: ColorGradingParams)
    ensures AsNum(EncodeColorGrading(p), Key.Brightness, DefaultColorGrading.brightness) == p.brightness
    ensures AsNum(EncodeColorGrading(p), Key.Contrast, DefaultColorGrading.contrast) == p.contrast
  {
  }

  /** The tonemapper of encoded parameters reads back as written. */
  lemma EncodedTonemapper(p: ColorGradingParams)
    ensures EnumAt(EncodeColorGrading(p), Key.Tonemapper, DefaultColorGrading.tonemapper, TonemapperFromString) == p.tonemapper
  {
    EnumRoundTrips(Atmospheric, p.tonemapper, BloomBlended, Ambient, Assao);
  }

  /** The filmic toe of encoded parameters reads back as written. */
  lemma EncodedFilmicToe(p: ColorGradingParams)
    ensures AsNum(EncodeColorGrading(p), Key.FilmicToeStrength, DefaultColorGrading.filmicToeStrength) == p.filmicToeStrength
    ensures AsNum(EncodeColorGrading(p), Key.FilmicToeLength, DefaultColorGrading.filmicToeLength) == p.filmicToeLength
  {
  }

  /** The filmic shoulder of encoded parameters reads back as written. */
  lemma EncodedFilmicShoulder(p: ColorGradingParams)
    ensures AsNum(EncodeColorGrading(p), Key.FilmicShoulderStrength, DefaultColorGrading.filmicShoulderStrength) == p.filmicShoulderStrength
    ensures AsNum(EncodeColorGrading(p), Key.FilmicShoulderLength, DefaultColorGrading.filmicShoulderLength) == p.filmicShoulderLength
    ensures AsNum(EncodeColorGrading(p), Key.FilmicShoulderAngle, DefaultColorGrading.filmicShoulderAngle) == p.filmicShoulderAngle
  {
  }

  /** The whitepoint and the shadow and midtone colours of encoded parameters read back as written. */
  lemma EncodedWhitepointAndColors(p: ColorGradingParams)
    ensures AsNum(EncodeColorGrading(p), Key.FilmicHejiWhitepoint, DefaultColorGrading.filmicHejiWhitepoint) == p.filmicHejiWhitepoint
    ensures AsVec3(EncodeColorGrading(p), Key.ShadowColor, DefaultColorGrading.shadowColor) == p.shadowColor
    ensures AsVec3(EncodeColorGrading(p), Key.MidtoneColor, DefaultColorGrading.midtoneColor) == p.midtoneColor
  {
  }

  /** The highlight colour and the three offsets of encoded parameters read back as written. */
  lemma EncodedHighlightAndOffsets(p: ColorGradingParams)
    ensures AsVec3(EncodeColorGrading(p), Key.HighlightColor, DefaultColorGrading.highlightColor) == p.highlightColor
    ensures AsNum(EncodeColorGrading(p), Key.ShadowOffset, DefaultColorGrading.shadowOffset) == p.shadowOffset
    ensures AsNum(EncodeColorGrading(p), Key.MidtoneOffset, DefaultColorGrading.midtoneOffset) == p.midtoneOffset
    ensures AsNum(EncodeColorGrading(p), Key.HighlightOffset, DefaultColorGrading.highlightOffset) == p.highlightOffset
  {
  }

  /** The HSV adjustments and the channel mix of encoded parameters read back as written. */
  lemma EncodedHsvAndChannelMix(p: ColorGradingParams)
    ensures AsNum(EncodeColorGrading(p), Key.HSVHueAdjustment, DefaultColorGrading.hsvHueAdjustment) == p.hsvHueAdjustment
    ensures AsNum(EncodeColorGrading(p), Key.HSVSaturationAdjustment, DefaultColorGrading.hsvSaturationAdjustment) == p.hsvSaturationAdjustment
    ensures AsNum(EncodeColorGrading(p), Key.HSVValueAdjustment, DefaultColorGrading.hsvValueAdjustment) == p.hsvValueAdjustment
    ensures AsVec3(EncodeColorGrading(p), Key.ChannelMixRed, DefaultColorGrading.channelMixRed) == p.channelMixRed
    ensures AsVec3(EncodeColorGrading(p), Key.ChannelMixGreen, DefaultColorGrading.channelMixGreen) == p.channelMixGreen
    ensures AsVec3(EncodeColorGrading(p), Key.ChannelMixBlue, DefaultColorGrading.channelMixBlue) == p.channelMixBlue
  {
  }

  /** Encoded colour-grading parameters decode to themselves. */
  lemma ColorGradingRoundTrip(p: ColorGradingParams)
    ensures DecodeColorGrading(EncodeColorGrading(p)) == p
  {
    EncodedColorFilter(p);
    EncodedSaturationExposure(p);
    EncodedBrightnessContrast(p);
    EncodedTonemapper(p);
    EncodedFilmicToe(p);
    EncodedFilmicShoulder(p);
    EncodedWhitepointAndColors(p);
    EncodedHighlightAndOffsets(p);
    EncodedHsvAndChannelMix(p);
    DecodeColorGradingFields(EncodeColorGrading(p), p);
  }

  /** A document without colour-grading keys decodes to the defaults. */
  lemma ColorGradingMissingKeys()
    ensures DecodeColorGrading(map[]) == DefaultColorGrading
  {
  }
}
