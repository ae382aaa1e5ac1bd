/**
 * The YAML documents the effects configuration is read from and written
 * to, as the codecs see them.
 *
 * A mapping node is a finite map from keys to values. The keys are the
 * fixed vocabulary the codecs use, each with the text it has in a file
 * (`Spelling`); keys outside that vocabulary are never read and are not
 * represented. Scalars carry their kind: booleans, numbers and strings.
 * `node[key].as<T>(fallback)` yields the stored value when the key is
 * present and holds a value of kind T, and the fallback otherwise.
 */
module Yaml {
  import opened Gpu
  import opened Wrappers

  /** The keys the codecs read and write. */
  datatype Key =
    Altitude | AltitudeBlendEnd | AltitudeBlendStart | AmbientColor | Amount | ApplyToSky | AreaMax
    | AreaMin | AtmosDensity | AtmosFalloff | AtmosHighIntensity | AtmosIntensity
    | AtmosphereCubemap | AtmosphereDensity | AtmosphereEnable | AtmosphereTexture | BlendAdditive
    | BlendEndHeight | BlendFactor | BlendStartHeight | Bloom | BlurAmount | Brightness
    | CeilingFade | ChannelMixBlue | ChannelMixGreen | ChannelMixRed | CloudAlpha | CloudBrightness
    | CloudCount | CloudLayer | CloudLayers | CloudSizeMax | CloudSizeMin | CloudVolumes | Color
    | ColorAmount | ColorDark | ColorFilter | ColorGrading | ColorLit | Colored | Contrast
    | ContrastAdaptiveSharpening | Control | Cover | CubemapMipScale | CubemapOffset
    | CubemapRotation | CubemapScale | Curvature | CurvatureCenter | CurvedRadius | DOF | DarkColor
    | Density | DepthCutoffDistance | DepthFadeFar | DepthFadeNear | DetailShadowStrength
    | DirtScale | DirtTextureName | DirtTint | DiscCenterX | DiscCenterZ | DiscEdgeFade | DiscRadius
    | DistanceFadeEnd | DistanceFadeStart | EdgeSoftness | Enable | Enabled | End | EndDistance
    | EvolutionSpeed | Exposure | FStop | FadeEndHeight | FadeFar | FadeNear | FadeStartHeight
    | FilmGrain | FilmSize | FilmicHejiWhitepoint | FilmicShoulderAngle | FilmicShoulderLength
    | FilmicShoulderStrength | FilmicToeLength | FilmicToeStrength | FocusDistance | Fog | FogAlpha
    | FogBoostMax | FogColor | FogEnd | FogImmersion | FogStart | GlobalFogBoostScale
    | GroundCubemap | HSVHueAdjustment | HSVSaturationAdjustment | HSVValueAdjustment | HalfHeight
    | Height | HeightBase | HeightBlendWeight | HeightCeiling | HeightDensity | HeightFalloff
    | HeightFogEnable | HeightFogUseDistanceRange | HighlightColor | HighlightOffset | HorizonBlend
    | HorizonFadeEnd | HorizonFadeStart | HorizonOffset | HorizonShift | HorizonStart | ImmersionEnd
    | ImmersionRange | ImmersionStart | InnerMidScale | InnerMidTint | InnerScale | InnerTint
    | Intensity | Layer0 | Layer1 | Layer2 | Layers | LightColor | LightScattering | LightingWrap
    | LightrayStep | LumaAmount | ManualBlend | MaxLighting | MaxOpacity | Method | MidScale
    | MidTint | MidtoneColor | MidtoneOffset | MinBrightness | MinLighting | MipScale | Mode
    | Monochrome | NearFadeEnd | NearFadeStart | NoiseEnable | NoiseInfluence | NoiseIntensity
    | NoiseScale | NoiseSpeed | NoiseTiling | OctaveBlend | OctaveEvolFreqs0to3
    | OctaveEvolFreqs4to7 | OctaveWeights | OctaveWeights0to3 | OctaveWeights4to7 | Offset
    | OuterMidScale | OuterMidTint | OuterScale | OuterTint | ParticleSize | ParticlesPerVolume
    | PlaneCenterX | PlaneCenterZ | PlaneSize | Position | Radius | Rotation | SSAO | Saturation
    | Scale | Scattering | ScrollAngle | ScrollSpeed | Seed | ShadowMultiplier | ShadowPower
    | ShadowColor | ShadowOffset | Sharpness | Size | SkyBlendOverride | SkyCubemap
    | SkyDistanceThreshold | Softness | SpaceCubemap | SpaceTexture | Start | StartDistance
    | SunColor | SunColorInfluence | SunDirection | SunInscatterEnable | SunIntensity | SunPower
    | Thickness | Threshold | TilingScale | Tint | Tonemapper | UseDirt | UseNormalLighting
    | UseRGBE | Vignette | Volumes | WindAngle | WindDirection | WindSpeed | ZenithHaze
    | LowerSharpness

  /** The text of each key as it appears in a configuration file. */
  function Spelling(k: Key): string {
    match k
    case Altitude => "Altitude"
    case AltitudeBlendEnd => "AltitudeBlendEnd"
    case AltitudeBlendStart => "AltitudeBlendStart"
    case AmbientColor => "AmbientColor"
    case Amount => "Amount"
    case ApplyToSky => "ApplyToSky"
    case AreaMax => "AreaMax"
    case AreaMin => "AreaMin"
    case AtmosDensity => "AtmosDensity"
    case AtmosFalloff => "AtmosFalloff"
    case AtmosHighIntensity => "AtmosHighIntensity"
    case AtmosIntensity => "AtmosIntensity"
    case AtmosphereCubemap => "AtmosphereCubemap"
    case AtmosphereDensity => "AtmosphereDensity"
    case AtmosphereEnable => "AtmosphereEnable"
    case AtmosphereTexture => "AtmosphereTexture"
    case BlendAdditive => "BlendAdditive"
    case BlendEndHeight => "BlendEndHeight"
    case BlendFactor => "BlendFactor"
    case BlendStartHeight => "BlendStartHeight"
    case Bloom => "Bloom"
    case BlurAmount => "Blur Amount"
    case Brightness => "Brightness"
    case CeilingFade => "CeilingFade"
    case ChannelMixBlue => "ChannelMixBlue"
    case ChannelMixGreen => "ChannelMixGreen"
    case ChannelMixRed => "ChannelMixRed"
    case CloudAlpha => "CloudAlpha"
    case CloudBrightness => "CloudBrightness"
    case CloudCount => "CloudCount"
    case CloudLayer => "CloudLayer"
    case CloudLayers => "CloudLayers"
    case CloudSizeMax => "CloudSizeMax"
    case CloudSizeMin => "CloudSizeMin"
    case CloudVolumes => "CloudVolumes"
    case Color => "Color"
    case ColorAmount => "ColorAmount"
    case ColorDark => "ColorDark"
    case ColorFilter => "ColorFilter"
    case ColorGrading => "ColorGrading"
    case ColorLit => "ColorLit"
    case Colored => "Colored"
    case Contrast => "Contrast"
    case ContrastAdaptiveSharpening => "ContrastAdaptiveSharpening"
    case Control => "Control"
    case Cover => "Cover"
    case CubemapMipScale => "CubemapMipScale"
    case CubemapOffset => "CubemapOffset"
    case CubemapRotation => "CubemapRotation"
    case CubemapScale => "CubemapScale"
    case Curvature => "Curvature"
    case CurvatureCenter => "CurvatureCenter"
    case CurvedRadius => "CurvedRadius"
    case DOF => "DOF"
    case DarkColor => "DarkColor"
    case Density => "Density"
    case DepthCutoffDistance => "DepthCutoffDistance"
    case DepthFadeFar => "DepthFadeFar"
    case DepthFadeNear => "DepthFadeNear"
    case DetailShadowStrength => "Detail Shadow Strength"
    case DirtScale => "DirtScale"
    case DirtTextureName => "DirtTextureName"
    case DirtTint => "DirtTint"
    case DiscCenterX => "DiscCenterX"
    case DiscCenterZ => "DiscCenterZ"
    case DiscEdgeFade => "DiscEdgeFade"
    case DiscRadius => "DiscRadius"
    case DistanceFadeEnd => "DistanceFadeEnd"
    case DistanceFadeStart => "DistanceFadeStart"
    case EdgeSoftness => "EdgeSoftness"
    case Enable => "Enable"
    case Enabled => "Enabled"
    case End => "End"
    case EndDistance => "EndDistance"
    case EvolutionSpeed => "EvolutionSpeed"
    case Exposure => "Exposure"
    case FStop => "FStop"
    case FadeEndHeight => "FadeEndHeight"
    case FadeFar => "FadeFar"
    case FadeNear => "FadeNear"
    case FadeStartHeight => "FadeStartHeight"
    case FilmGrain => "FilmGrain"
    case FilmSize => "FilmSize"
    case FilmicHejiWhitepoint => "FilmicHejiWhitepoint"
    case FilmicShoulderAngle => "FilmicShoulderAngle"
    case FilmicShoulderLength => "FilmicShoulderLength"
    case FilmicShoulderStrength => "FilmicShoulderStrength"
    case FilmicToeLength => "FilmicToeLength"
    case FilmicToeStrength => "FilmicToeStrength"
    case FocusDistance => "FocusDistance"
    case Fog => "Fog"
    case FogAlpha => "FogAlpha"
    case FogBoostMax => "FogBoostMax"
    case FogColor => "FogColor"
    case FogEnd => "FogEnd"
    case FogImmersion => "FogImmersion"
    case FogStart => "FogStart"
    case GlobalFogBoostScale => "GlobalFogBoostScale"
    case GroundCubemap => "GroundCubemap"
    case HSVHueAdjustment => "HSVHueAdjustment"
    case HSVSaturationAdjustment => "HSVSaturationAdjustment"
    case HSVValueAdjustment => "HSVValueAdjustment"
    case HalfHeight => "HalfHeight"
    case Height => "Height"
    case HeightBase => "HeightBase"
    case HeightBlendWeight => "HeightBlendWeight"
    case HeightCeiling => "HeightCeiling"
    case HeightDensity => "HeightDensity"
    case HeightFalloff => "HeightFalloff"
    case HeightFogEnable => "HeightFogEnable"
    case HeightFogUseDistanceRange => "HeightFogUseDistanceRange"
    case HighlightColor => "HighlightColor"
    case HighlightOffset => "HighlightOffset"
    case HorizonBlend => "HorizonBlend"
    case HorizonFadeEnd => "HorizonFadeEnd"
    case HorizonFadeStart => "HorizonFadeStart"
    case HorizonOffset => "HorizonOffset"
    case HorizonShift => "HorizonShift"
    case HorizonStart => "HorizonStart"
    case ImmersionEnd => "ImmersionEnd"
    case ImmersionRange => "ImmersionRange"
    case ImmersionStart => "ImmersionStart"
    case InnerMidScale => "InnerMidScale"
    case InnerMidTint => "InnerMidTint"
    case InnerScale => "InnerScale"
    case InnerTint => "InnerTint"
    case Intensity => "Intensity"
    case Layer0 => "Layer0"
    case Layer1 => "Layer1"
    case Layer2 => "Layer2"
    case Layers => "Layers"
    case LightColor => "LightColor"
    case LightScattering => "LightScattering"
    case LightingWrap => "LightingWrap"
    case LightrayStep => "LightrayStep"
    case LumaAmount => "LumaAmount"
    case ManualBlend => "ManualBlend"
    case MaxLighting => "MaxLighting"
    case MaxOpacity => "MaxOpacity"
    case Method => "Method"
    case MidScale => "MidScale"
    case MidTint => "MidTint"
    case MidtoneColor => "MidtoneColor"
    case MidtoneOffset => "MidtoneOffset"
    case MinBrightness => "MinBrightness"
    case MinLighting => "MinLighting"
    case MipScale => "MipScale"
    case Mode => "Mode"
    case Monochrome => "Monochrome"
    case NearFadeEnd => "NearFadeEnd"
    case NearFadeStart => "NearFadeStart"
    case NoiseEnable => "NoiseEnable"
    case NoiseInfluence => "NoiseInfluence"
    case NoiseIntensity => "NoiseIntensity"
    case NoiseScale => "NoiseScale"
    case NoiseSpeed => "NoiseSpeed"
    case NoiseTiling => "NoiseTiling"
    case OctaveBlend => "OctaveBlend"
    case OctaveEvolFreqs0to3 => "OctaveEvolFreqs0to3"
    case OctaveEvolFreqs4to7 => "OctaveEvolFreqs4to7"
    case OctaveWeights => "OctaveWeights"
    case OctaveWeights0to3 => "OctaveWeights0to3"
    case OctaveWeights4to7 => "OctaveWeights4to7"
    case Offset => "Offset"
    case OuterMidScale => "OuterMidScale"
    case OuterMidTint => "OuterMidTint"
    case OuterScale => "OuterScale"
    case OuterTint => "OuterTint"
    case ParticleSize => "ParticleSize"
    case ParticlesPerVolume => "ParticlesPerVolume"
    case PlaneCenterX => "PlaneCenterX"
    case PlaneCenterZ => "PlaneCenterZ"
    case PlaneSize => "PlaneSize"
    case Position => "Position"
    case Radius => "Radius"
    case Rotation => "Rotation"
    case SSAO => "SSAO"
    case Saturation => "Saturation"
    case Scale => "Scale"
    case Scattering => "Scattering"
    case ScrollAngle => "ScrollAngle"
    case ScrollSpeed => "ScrollSpeed"
    case Seed => "Seed"
    case ShadowMultiplier => "Shadow Multiplier"
    case ShadowPower => "Shadow Power"
    case ShadowColor => "ShadowColor"
    case ShadowOffset => "ShadowOffset"
    case Sharpness => "Sharpness"
    case Size => "Size"
    case SkyBlendOverride => "SkyBlendOverride"
    case SkyCubemap => "SkyCubemap"
    case SkyDistanceThreshold => "SkyDistanceThreshold"
    case Softness => "Softness"
    case SpaceCubemap => "SpaceCubemap"
    case SpaceTexture => "SpaceTexture"
    case Start => "Start"
    case StartDistance => "StartDistance"
    case SunColor => "SunColor"
    case SunColorInfluence => "SunColorInfluence"
    case SunDirection => "SunDirection"
    case SunInscatterEnable => "SunInscatterEnable"
    case SunIntensity => "SunIntensity"
    case SunPower => "SunPower"
    case Thickness => "Thickness"
    case Threshold => "Threshold"
    case TilingScale => "TilingScale"
    case Tint => "Tint"
    case Tonemapper => "Tonemapper"
    case UseDirt => "UseDirt"
    case UseNormalLighting => "UseNormalLighting"
    case UseRGBE => "UseRGBE"
    case Vignette => "Vignette"
    case Volumes => "Volumes"
    case WindAngle => "WindAngle"
    case WindDirection => "WindDirection"
    case WindSpeed => "WindSpeed"
    case ZenithHaze => "ZenithHaze"
    case LowerSharpness => "sharpness"
  }

  /** A YAML value: a scalar of one of three kinds, a sequence or a mapping. */
  datatype Value =
    | Bool(b: bool)
    | Num(x: real)
    | Str(s: string)
    | List(items: seq<Value>)
    | Map(fields: map<Key, Value>)

  /** A mapping node. */
  type Node = map<Key, Value>

  /** `node[k].as<bool>(fallback)`. */
  function AsBool(n: Node, k: Key, fallback: bool): bool {
    if k in n && n[k].Bool? then n[k].b else fallback
  }

  /** `node[k].as<float>(fallback)`. */
  function AsNum(n: Node, k: Key, fallback: real): real {
    if k in n && n[k].Num? then n[k].x else fallback
  }

  /** `node[k].as<int>(fallback)`: a number with no fractional part. */
  function AsInt(n: Node, k: Key, fallback: int): int {
    if k in n && n[k].Num? && n[k].x == n[k].x.Floor as real then n[k].x.Floor else fallback
  }

  /** `node[k].as<std::uint32_t>(fallback)`: a whole number in [0, 2^32). */
  function AsU32(n: Node, k: Key, fallback: nat): nat {
    if k in n && n[k].Num? && n[k].x == n[k].x.Floor as real && 0 <= n[k].x.Floor < 0x1_0000_0000
    then n[k].x.Floor as nat
    else fallback
  }

  /** `node[k].as<std::string>(fallback)`. */
  function AsStr(n: Node, k: Key, fallback: string): string {
    if k in n && n[k].Str? then n[k].s else fallback
  }

  /** `node[k]` when it is a mapping. */
  function AsMap(n: Node, k: Key): Option<Node> {
    if k in n && n[k].Map? then Some(n[k].fields) else None
  }

  /**
   * The node a decoder is handed by `config[k].as<T>(fallback)` on a
   * non-const document: the mapping stored at k or, when k is absent,
   * the undefined node `operator[]` inserts, which every single-key read
   * sees as an empty mapping. A list stored at k reads the same way, as a
   * key looked up in a sequence gives an undefined node. The fallback is never used, as the decoders
   * always succeed.
   */
  function SectionFields(config: Node, k: Key): (r: Node)
    ensures AsMap(config, k).Some? ==> r == AsMap(config, k).value
    ensures k !in config ==> r == map[]
  {
    if k in config && config[k].Map? then config[k].fields else map[]
  }

  /**
   * `node[k][i]` on a const node throws: `InvalidNode` when k is missing,
   * because `node[k]` is then a zombie node, and `BadSubscript` when k
   * holds a scalar. A sequence or a mapping at k can be subscripted.
   */
  predicate SubscriptThrows(n: Node, k: Key) {
    !(k in n && (n[k].List? || n[k].Map?))
  }

  /** The numbers of a sequence of numbers. */
  predicate IsNumbers(items: seq<Value>) {
    forall i :: 0 <= i < |items| ==> items[i].Num?
  }

  /** A sequence of numbers from reals. */
  function Numbers(xs: seq<real>): (r: seq<Value>)
    ensures |r| == |xs| && IsNumbers(r)
    ensures forall i :: 0 <= i < |xs| ==> r[i] == Num(xs[i])
  {
    seq(|xs|, i requires 0 <= i < |xs| => Num(xs[i]))
  }

  /** `node[k].as<std::vector<float>>(fallback)`: any sequence of numbers. */
  function AsFloats(n: Node, k: Key, fallback: seq<real>): seq<real> {
    if k in n && n[k].List? && IsNumbers(n[k].items)
    then seq(|n[k].items|, i requires 0 <= i < |n[k].items| => n[k].items[i].x)
    else fallback
  }

  /** `node[k][i].as<float>(fallback)`: one element of a sequence. */
  function AsElement(n: Node, k: Key, i: nat, fallback: real): real {
    if k in n && n[k].List? && i < |n[k].items| && n[k].items[i].Num? then n[k].items[i].x else fallback
  }

  /** The encoding of the `glm` vectors: a sequence of their components. */
  function Vec2Value(v: Vec2): Value { List([Num(v.x), Num(v.y)]) }
  function Vec3Value(v: Vec3): Value { List([Num(v.x), Num(v.y), Num(v.z)]) }
  function Vec4Value(v: Vec4): Value { List([Num(v.x), Num(v.y), Num(v.z), Num(v.w)]) }

  /** `node[k].as<glm::vec2>(fallback)`: a sequence of exactly two numbers. */
  function AsVec2(n: Node, k: Key, fallback: Vec2): Vec2 {
    if k in n && n[k].List? && |n[k].items| == 2 && n[k].items[0].Num? && n[k].items[1].Num?
    then Vec2(n[k].items[0].x, n[k].items[1].x)
    else fallback
  }

  /** `node[k].as<glm::vec3>(fallback)`: a sequence of exactly three numbers. */
  function AsVec3(n: Node, k: Key, fallback: Vec3): Vec3 {
    if k in n && n[k].List? && |n[k].items| == 3 && n[k].items[0].Num? && n[k].items[1].Num? && n[k].items[2].Num?
    then Vec3(n[k].items[0].x, n[k].items[1].x, n[k].items[2].x)
    else fallback
  }

  /** `node[k].as<glm::vec4>(fallback)`: a sequence of exactly four numbers. */
  function AsVec4(n: Node, k: Key, fallback: Vec4): Vec4 {
    if k in n && n[k].List? && |n[k].items| == 4
       && n[k].items[0].Num? && n[k].items[1].Num? && n[k].items[2].Num? && n[k].items[3].Num?
    then Vec4(n[k].items[0].x, n[k].items[1].x, n[k].items[2].x, n[k].items[3].x)
    else fallback
  }
}
