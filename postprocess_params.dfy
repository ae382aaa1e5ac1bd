/**
 * The post-processing parameter records, their enumerations with the
 * names they are written under, and the YAML codecs of the smaller
 * records. Bloom, colour grading, fog and the two sky records have modules
 * of their own.
 *
 * Every decoder starts over from the record's defaults, so a key missing
 * from a document leaves that field at its default, never at the value it
 * held before.
 */
module PostprocessParams {
  import opened Gpu
  import opened Numeric
  import opened Yaml

  // ---------------------------------------------------------------------
  // Enumerations

  /** `Sky_bf3_mode`. */
  datatype SkyBf3Mode = Basic | Atmospheric | Blended

  /** `to_string(Sky_bf3_mode)`. */
  function SkyBf3ModeName(m: SkyBf3Mode): string {
    match m
    case Basic => "Basic"
    case Atmospheric => "Atmospheric"
    case Blended => "Blended"
  }

  /** `sky_bf3_mode_from_string`: the mode named, or `atmospheric` for any other text. */
  function SkyBf3ModeFromString(s: string): (m: SkyBf3Mode)
    ensures SkyBf3ModeName(m) == s || (m == Atmospheric && forall x :: SkyBf3ModeName(x) != s)
  {
    if s == SkyBf3ModeName(Basic) then Basic
    else if s == SkyBf3ModeName(Atmospheric) then Atmospheric
    else if s == SkyBf3ModeName(Blended) then Blended
    else Atmospheric
  }

  /** `Tonemapper`. */
  datatype Tonemapper = Filmic | AcesFitted | FilmicHeji2015 | Reinhard | NoTonemapping

  /** `to_string(Tonemapper)`. */
  function TonemapperName(t: Tonemapper): string {
    match t
    case Filmic => "Filmic"
    case AcesFitted => "ACES sRGB Fitted"
    case FilmicHeji2015 => "Filmic Heji 2015"
    case Reinhard => "Reinhard"
    case NoTonemapping => "None"
  }

  /** `tonemapper_from_string`: the tonemapper named, or `filmic` for any other text. */
  function TonemapperFromString(s: string): (t: Tonemapper)
    ensures TonemapperName(t) == s || (t == Filmic && forall x :: TonemapperName(x) != s)
  {
    if s == TonemapperName(Filmic) then Filmic
    else if s == TonemapperName(AcesFitted) then AcesFitted
    else if s == TonemapperName(FilmicHeji2015) then FilmicHeji2015
    else if s == TonemapperName(Reinhard) then Reinhard
    else if s == TonemapperName(NoTonemapping) then NoTonemapping
    else Filmic
  }

  /** `Bloom_mode`. */
  datatype BloomMode = BloomBlended | BloomThreshold

  /** `to_string(Bloom_mode)`. */
  function BloomModeName(m: BloomMode): string {
    match m
    case BloomBlended => "Blended"
    case BloomThreshold => "Threshold"
  }

  /** `bloom_mode_from_string`: the mode named, or `blended` for any other text. */
  function BloomModeFromString(s: string): (m: BloomMode)
    ensures BloomModeName(m) == s || (m == BloomBlended && forall x :: BloomModeName(x) != s)
  {
    if s == BloomModeName(BloomBlended) then BloomBlended
    else if s == BloomModeName(BloomThreshold) then BloomThreshold
    else BloomBlended
  }

  /** `SSAO_mode`. */
  datatype SsaoMode = Ambient | Global

  /** `to_string(SSAO_mode)`. */
  function SsaoModeName(m: SsaoMode): string {
    match m
    case Ambient => "Ambient"
    case Global => "Global"
  }

  /** `ssao_mode_from_string`: the mode named, or `ambient` for any other text. */
  function SsaoModeFromString(s: string): (m: SsaoMode)
    ensures SsaoModeName(m) == s || (m == Ambient && forall x :: SsaoModeName(x) != s)
  {
    if s == SsaoModeName(Ambient) then Ambient
    else if s == SsaoModeName(Global) then Global
    else Ambient
  }

  /** `SSAO_method`: a single method. */
  datatype SsaoMethod = Assao

  /** `to_string(SSAO_method)`. */
  function SsaoMethodName(m: SsaoMethod): string {
    match m
    case Assao => "ASSAO"
  }

  /** `ssao_type_from_string`: `assao` whatever the text. */
  function SsaoMethodFromString(s: string): (m: SsaoMethod)
    ensures m == Assao
  {
    // The match on "ASSAO" and the fallback both give the one method there is.
    Assao
  }

  /** Each name reads back as the enumerator it names. */
  lemma EnumRoundTrips(sky: SkyBf3Mode, t: Tonemapper, b: BloomMode, m: SsaoMode, a: SsaoMethod)
    ensures SkyBf3ModeFromString(SkyBf3ModeName(sky)) == sky
    ensures TonemapperFromString(TonemapperName(t)) == t
    ensures BloomModeFromString(BloomModeName(b)) == b
    ensures SsaoModeFromString(SsaoModeName(m)) == m
    ensures SsaoMethodFromString(SsaoMethodName(a)) == a
  {
  }

  /** No two enumerators of one enumeration share a name. */
  lemma EnumNamesInjective(s1: SkyBf3Mode, s2: SkyBf3Mode, t1: Tonemapper, t2: Tonemapper,
                           b1: BloomMode, b2: BloomMode, m1: SsaoMode, m2: SsaoMode)
    ensures SkyBf3ModeName(s1) == SkyBf3ModeName(s2) ==> s1 == s2
    ensures TonemapperName(t1) == TonemapperName(t2) ==> t1 == t2
    ensures BloomModeName(b1) == BloomModeName(b2) ==> b1 == b2
    ensures SsaoModeName(m1) == SsaoModeName(m2) ==> m1 == m2
  {
    EnumRoundTrips(s1, t1, b1, m1, Assao);
    EnumRoundTrips(s2, t2, b2, m2, Assao);
  }

  /**
   * `node[k].as<E>(fallback)` for an enumeration: the fallback when the key
   * is absent; otherwise `from_string` of the scalar's text. A number or a
   * boolean has a text that names no enumerator, which the empty string
   * stands for.
   */
  function EnumAt<E>(n: Node, k: Key, fallback: E, fromString: string -> E): E {
    if k !in n then fallback
    else if n[k].Str? then fromString(n[k].s)
    else fromString("")
  }

  // ---------------------------------------------------------------------
  // Cubemap alignment

  /** `Cubemap_alignment`. */
  datatype CubemapAlignment = CubemapAlignment(rotation: Vec3, scale: Vec3, offset: Vec3, mipScale: real)

  /** `Cubemap_alignment{}`: the identity alignment. */
  const DefaultAlignment: CubemapAlignment :=
    CubemapAlignment(Vec3(0.0, 0.0, 0.0), Vec3(1.0, 1.0, 1.0), Vec3(0.0, 0.0, 0.0), 0.0)

  /** `convert<Cubemap_alignment>::encode`. */
  function EncodeAlignment(a: CubemapAlignment): Node {
    map[
      Key.Rotation := Vec3Value(a.rotation),
      Key.Scale := Vec3Value(a.scale),
      Key.Offset := Vec3Value(a.offset),
      Key.MipScale := Num(a.mipScale)]
  }

  /** `convert<Cubemap_alignment>::decode`. */
  function DecodeAlignment(n: Node): CubemapAlignment {
    var d := DefaultAlignment;
    CubemapAlignment(
      AsVec3(n, Key.Rotation, d.rotation),
      AsVec3(n, Key.Scale, d.scale),
      AsVec3(n, Key.Offset, d.offset),
      AsNum(n, Key.MipScale, d.mipScale))
  }

  /** Decoding an encoded alignment gives it back. */
  lemma AlignmentRoundTrip(a: CubemapAlignment)
    ensures DecodeAlignment(EncodeAlignment(a)) == a
  {
  }

  // ---------------------------------------------------------------------
  // Skybox override

  /** `Skybox_override_params`. */
  datatype SkyboxOverride = SkyboxOverride(
    enabled: bool,
    groundCubemap: string,
    skyCubemap: string,
    skyDistanceThreshold: real,
    atmosDensity: real,
    horizonShift: real,
    horizonStart: real,
    horizonBlend: real,
    tint: Vec3,
    debugMode: int)

  /** `Skybox_override_params{}`. */
  const DefaultSkyboxOverride: SkyboxOverride :=
    SkyboxOverride(false, "", "", 5000.0, 0.005, 0.1, 0.3, 0.0, Vec3(1.0, 1.0, 1.0), 0)

  /** `convert<Skybox_override_params>::encode`: every field but the debug mode. */
  function EncodeSkyboxOverride(p: SkyboxOverride): Node {
    map[
      Key.Enable := Bool(p.enabled),
      Key.GroundCubemap := Str(p.groundCubemap),
      Key.SkyCubemap := Str(p.skyCubemap),
      Key.SkyDistanceThreshold := Num(p.skyDistanceThreshold),
      Key.AtmosDensity := Num(p.atmosDensity),
      Key.HorizonShift := Num(p.horizonShift),
      Key.HorizonStart := Num(p.horizonStart),
      Key.HorizonBlend := Num(p.horizonBlend),
      Key.Tint := Vec3Value(p.tint)]
  }

  /** `convert<Skybox_override_params>::decode`: the debug mode is never read. */
  function DecodeSkyboxOverride(n: Node): SkyboxOverride {
    var d := DefaultSkyboxOverride;
    SkyboxOverride(
      AsBool(n, Key.Enable, d.enabled),
      AsStr(n, Key.GroundCubemap, d.groundCubemap),
      AsStr(n, Key.SkyCubemap, d.skyCubemap),
      AsNum(n, Key.SkyDistanceThreshold, d.skyDistanceThreshold),
      AsNum(n, Key.AtmosDensity, d.atmosDensity),
      AsNum(n, Key.HorizonShift, d.horizonShift),
      AsNum(n, Key.HorizonStart, d.horizonStart),
      AsNum(n, Key.HorizonBlend, d.horizonBlend),
      AsVec3(n, Key.Tint, d.tint),
      d.debugMode)
  }

  /**
   * Decoding encoded skybox parameters gives them back with the debug mode
   * reset to off: they round-trip exactly when the debug mode is off.
   */
  lemma SkyboxOverrideRoundTrip(p: SkyboxOverride)
    ensures DecodeSkyboxOverride(EncodeSkyboxOverride(p)) == p.(debugMode := 0)
    ensures DecodeSkyboxOverride(EncodeSkyboxOverride(p)) == p <==> p.debugMode == 0
  {
  }

  // ---------------------------------------------------------------------
  // Vignette

  /** `Vignette_params`. */
  datatype VignetteParams = VignetteParams(enabled: bool, end: real, start: real)

  /** `Vignette_params{}`. */
  const DefaultVignette: VignetteParams := VignetteParams(true, 1.0, 0.25)

  /** `convert<Vignette_params>::encode`. */
  function EncodeVignette(p: VignetteParams): Node {
    map[Key.Enable := Bool(p.enabled), Key.End := Num(p.end), Key.Start := Num(p.start)]
  }

  /** `convert<Vignette_params>::decode`. */
  function DecodeVignette(n: Node): VignetteParams {
    var d := DefaultVignette;
    VignetteParams(AsBool(n, Key.Enable, d.enabled), AsNum(n, Key.End, d.end), AsNum(n, Key.Start, d.start))
  }

  /** Decoding encoded vignette parameters gives them back. */
  lemma VignetteRoundTrip(p: VignetteParams)
    ensures DecodeVignette(EncodeVignette(p)) == p
  {
  }

  // ---------------------------------------------------------------------
  // Film grain

  /** `Film_grain_params`. */
  datatype FilmGrainParams = FilmGrainParams(
    enabled: bool, colored: bool, amount: real, size: real, colorAmount: real, lumaAmount: real)

  /** `Film_grain_params{}`. */
  const DefaultFilmGrain: FilmGrainParams := FilmGrainParams(false, false, 0.035, 1.65, 0.6, 1.0)

  /** `convert<Film_grain_params>::encode`. */
  function EncodeFilmGrain(p: FilmGrainParams): Node {
    map[
      Key.Enable := Bool(p.enabled),
      Key.Colored := Bool(p.colored),
      Key.Amount := Num(p.amount),
      Key.Size := Num(p.size),
      Key.ColorAmount := Num(p.colorAmount),
      Key.LumaAmount := Num(p.lumaAmount)]
  }

  /** `convert<Film_grain_params>::decode`. */
  function DecodeFilmGrain(n: Node): FilmGrainParams {
    var d := DefaultFilmGrain;
    FilmGrainParams(
      AsBool(n, Key.Enable, d.enabled),
      AsBool(n, Key.Colored, d.colored),
      AsNum(n, Key.Amount, d.amount),
      AsNum(n, Key.Size, d.size),
      AsNum(n, Key.ColorAmount, d.colorAmount),
      AsNum(n, Key.LumaAmount, d.lumaAmount))
  }

  /** Decoding encoded film-grain parameters gives them back. */
  lemma FilmGrainRoundTrip(p: FilmGrainParams)
    ensures DecodeFilmGrain(EncodeFilmGrain(p)) == p
  {
  }

  // ---------------------------------------------------------------------
  // SSAO

  /** `SSAO_params`. */
  datatype Ssao = Ssao(
    enabled: bool,
    mode: SsaoMode,
    aoMethod: SsaoMethod,
    radius: real,
    shadowMultiplier: real,
    shadowPower: real,
    detailShadowStrength: real,
    blurPassCount: int,
    sharpness: real)

  /** `SSAO_params{}`: enabled, in ambient mode. */
  const DefaultSsao: Ssao := Ssao(true, Ambient, Assao, 1.5, 0.75, 0.75, 0.5, 2, 0.98)

  /** `convert<SSAO_params>::encode`. */
  function EncodeSsao(p: Ssao): Node {
    map[
      Key.Enable := Bool(p.enabled),
      Key.Mode := Str(SsaoModeName(p.mode)),
      Key.Method := Str(SsaoMethodName(p.aoMethod)),
      Key.Radius := Num(p.radius),
      Key.ShadowMultiplier := Num(p.shadowMultiplier),
      Key.ShadowPower := Num(p.shadowPower),
      Key.DetailShadowStrength := Num(p.detailShadowStrength),
      Key.BlurAmount := Num(p.blurPassCount as real),
      Key.LowerSharpness := Num(p.sharpness)]
  }

  /**
   * `convert<SSAO_params>::decode`: over `SSAO_params{}`, except that a
   * missing `Enable` reads as false and a missing `Mode` as `global`.
   */
  function DecodeSsao(n: Node): Ssao {
    var d := DefaultSsao;
    Ssao(
      AsBool(n, Key.Enable, false),
      EnumAt(n, Key.Mode, Global, SsaoModeFromString),
      EnumAt(n, Key.Method, Assao, SsaoMethodFromString),
      AsNum(n, Key.Radius, d.radius),
      AsNum(n, Key.ShadowMultiplier, d.shadowMultiplier),
      AsNum(n, Key.ShadowPower, d.shadowPower),
      AsNum(n, Key.DetailShadowStrength, d.detailShadowStrength),
      AsInt(n, Key.BlurAmount, d.blurPassCount),
      AsNum(n, Key.LowerSharpness, d.sharpness))
  }

  /** Decoding encoded SSAO parameters gives them back. */
  lemma SsaoRoundTrip(p: Ssao)
    ensures DecodeSsao(EncodeSsao(p)) == p
  {
    EnumRoundTrips(Atmospheric, Filmic, BloomBlended, p.mode, p.aoMethod);
  }

  /**
   * A document without SSAO keys does not give the struct defaults: it
   * gives SSAO disabled and in global mode, where `SSAO_params{}` is
   * enabled and in ambient mode.
   */
  lemma SsaoMissingKeys()
    ensures DecodeSsao(map[]) == DefaultSsao.(enabled := false, mode := Global)
    ensures DecodeSsao(map[]) != DefaultSsao
    ensures DefaultSsao.enabled && DefaultSsao.mode == Ambient
  {
  }

  // ---------------------------------------------------------------------
  // Contrast-adaptive sharpening

  /** `FFX_cas_params`. */
  datatype FfxCas = FfxCas(enabled: bool, sharpness: real)

  /** `FFX_cas_params{}`. */
  const DefaultFfxCas: FfxCas := FfxCas(false, 0.0)

  /** `convert<FFX_cas_params>::encode`. */
  function EncodeFfxCas(p: FfxCas): Node {
    map[Key.Enable := Bool(p.enabled), Key.Sharpness := Num(p.sharpness)]
  }

  /** `convert<FFX_cas_params>::decode`. */
  function DecodeFfxCas(n: Node): FfxCas {
    FfxCas(AsBool(n, Key.Enable, DefaultFfxCas.enabled), AsNum(n, Key.Sharpness, DefaultFfxCas.sharpness))
  }

  /** Decoding encoded sharpening parameters gives them back. */
  lemma FfxCasRoundTrip(p: FfxCas)
    ensures DecodeFfxCas(EncodeFfxCas(p)) == p
  {
  }

  // ---------------------------------------------------------------------
  // Depth of field

  /** `DOF_params`. */
  datatype Dof = Dof(enabled: bool, filmSizeMm: real, focusDistance: real, fStop: real)

  /** `DOF_params{}`. */
  const DefaultDof: Dof := Dof(false, 35.0, 10.0, 16.0)

  /** The ranges the decoder clamps into: film size and f-stop at least 1, focus distance at least 0. */
  predicate DofInRange(p: Dof) {
    p.filmSizeMm >= 1.0 && p.focusDistance >= 0.0 && p.fStop >= 1.0
  }

  /** `convert<DOF_params>::encode`. */
  function EncodeDof(p: Dof): Node {
    map[
      Key.Enable := Bool(p.enabled),
      Key.FilmSize := Num(p.filmSizeMm),
      Key.FocusDistance := Num(p.focusDistance),
      Key.FStop := Num(p.fStop)]
  }

  /**
   * `convert<DOF_params>::decode`: each number read over `DOF_params{}` and
   * then raised to the bottom of its range.
   */
  function DecodeDof(n: Node): (p: Dof)
    ensures DofInRange(p)
  {
    var d := DefaultDof;
    Dof(
      AsBool(n, Key.Enable, d.enabled),
      MaxReal(AsNum(n, Key.FilmSize, d.filmSizeMm), 1.0),
      MaxReal(AsNum(n, Key.FocusDistance, d.focusDistance), 0.0),
      MaxReal(AsNum(n, Key.FStop, d.fStop), 1.0))
  }

  /** Depth-of-field parameters round-trip exactly when they are in the clamped ranges. */
  lemma DofRoundTrip(p: Dof)
    ensures DecodeDof(EncodeDof(p)) == p <==> DofInRange(p)
  {
  }

  /** The defaults are in range, so a document without keys decodes to them. */
  lemma DofMissingKeys()
    ensures DofInRange(DefaultDof)
    ensures DecodeDof(map[]) == DefaultDof
  {
  }
}
