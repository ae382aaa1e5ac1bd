/**
 * The constant-buffer records the configuration is read into and the
 * effects upload: the fog constants, the per-layer cloud parameters and the
 * cloud-volume area, with their default member values and the three layer
 * presets. Single-precision fields are reals; `uint32` fields are naturals.
 */
module ConstantBuffers {
  import opened Gpu

  /** `cb::Fog`: the post-process fog constants. */
  datatype Fog = Fog(
    invViewMatrix: Mat4,
    fogColor: Vec4,
    fogStart: real,
    fogEnd: real,
    heightBase: real,
    heightCeiling: real,
    atmosDensity: real,
    fogAlpha: real,
    projScaleX: real,
    projScaleY: real,
    cameraPosition: Vec3,
    time: real,
    blendAdditive: nat,
    applyToSky: nat,
    depthLinearizeParams: Vec2,
    heightFalloff: real,
    fogImmersion: real,
    immersionStart: real,
    immersionEnd: real,
    immersionRange: real,
    heightFogUseDistanceRange: nat,
    ceilingFade: real,
    fogDiscCenterX: real,
    fogDiscCenterZ: real,
    fogDiscRadius: real,
    fogDiscEdgeFade: real)

  const DefaultFog: Fog := Fog(
    Identity, Vec4(1.0, 1.0, 1.0, 0.0), 0.0, 80.0,
    0.0, 250.0, 0.012, 0.0,
    1.0, 1.0, Vec3(0.0, 0.0, 0.0), 0.0,
    0, 1, Vec2(1.0, 1.0),
    1.0, 0.0, 0.0, 20.0, 240.0,
    0, 0.0, 0.0, 0.0, 0.0, 50.0)

  /** `cb::CloudLayerParams`: one layer of the three-layer cloud system. */
  datatype CloudLayerParams = CloudLayerParams(
    lightColor: Vec3,
    cover: real,
    darkColor: Vec3,
    sharpness: real,
    octaveWeights0to3: Vec4,
    octaveWeights4to7: Vec4,
    octaveEvolFreqs0to3: Vec4,
    octaveEvolFreqs4to7: Vec4,
    altitude: real,
    curvedRadius: real,
    planeSize: real,
    tilingScale: real,
    windSpeed: real,
    windAngle: real,
    halfHeight: real,
    lightrayStep: real,
    maxLighting: real,
    minLighting: real,
    scattering: real,
    enabled: nat,
    planeCenterX: real,
    planeCenterZ: real)

  const DefaultLayer: CloudLayerParams := CloudLayerParams(
    Vec3(1.0, 0.87, 0.66), 0.45, Vec3(0.0, 0.0, 0.0), 0.9,
    Vec4(0.9, 0.4, 0.25, 0.125), Vec4(0.08, 0.06, 0.04, 0.02),
    Vec4(0.005, 0.015, 0.028, 0.05), Vec4(0.16, 0.32, 0.64, 1.28),
    1600.0, 30000.0, 5.0, 1.5,
    0.002, 90.0, 300.0, 0.5,
    1.0, 0.0, 0.06, 0,
    0.0, 0.0)

  /** `CloudLayerParams::stratus()`: low, flat, uniform layer clouds. */
  const Stratus: CloudLayerParams := DefaultLayer.(
    lightColor := Vec3(0.85, 0.85, 0.88), darkColor := Vec3(0.4, 0.42, 0.45),
    cover := 0.65, sharpness := 0.4, altitude := 600.0, curvedRadius := 30000.0,
    planeSize := 8.0, tilingScale := 0.8, windSpeed := 0.001, windAngle := 75.0,
    halfHeight := 150.0, lightrayStep := 0.3, scattering := 0.08,
    maxLighting := 0.9, minLighting := 0.15,
    octaveWeights0to3 := Vec4(1.0, 0.3, 0.15, 0.08), octaveWeights4to7 := Vec4(0.04, 0.02, 0.01, 0.005))

  /** `CloudLayerParams::cumulus()`: mid-level puffy clouds. */
  const Cumulus: CloudLayerParams := DefaultLayer.(
    lightColor := Vec3(1.0, 0.95, 0.88), darkColor := Vec3(0.25, 0.28, 0.35),
    cover := 0.45, sharpness := 1.2, altitude := 1400.0, curvedRadius := 30000.0,
    planeSize := 6.0, tilingScale := 1.5, windSpeed := 0.002, windAngle := 90.0,
    halfHeight := 400.0, lightrayStep := 0.5, scattering := 0.06,
    maxLighting := 1.0, minLighting := 0.05,
    octaveWeights0to3 := Vec4(0.9, 0.5, 0.3, 0.18), octaveWeights4to7 := Vec4(0.1, 0.06, 0.03, 0.015))

  /** `CloudLayerParams::cirrus()`: high, wispy ice clouds. */
  const Cirrus: CloudLayerParams := DefaultLayer.(
    lightColor := Vec3(1.0, 0.98, 1.0), darkColor := Vec3(0.6, 0.65, 0.75),
    cover := 0.3, sharpness := 0.25, altitude := 3500.0, curvedRadius := 30000.0,
    planeSize := 10.0, tilingScale := 2.5, windSpeed := 0.004, windAngle := 110.0,
    halfHeight := 200.0, lightrayStep := 0.2, scattering := 0.02,
    maxLighting := 1.0, minLighting := 0.4,
    octaveWeights0to3 := Vec4(0.6, 0.4, 0.35, 0.25), octaveWeights4to7 := Vec4(0.15, 0.12, 0.08, 0.04),
    octaveEvolFreqs0to3 := Vec4(0.008, 0.02, 0.04, 0.08), octaveEvolFreqs4to7 := Vec4(0.2, 0.4, 0.8, 1.6))

  /** The fixed three layers of `cb::CloudLayers`. */
  type LayerTriple = s: seq<CloudLayerParams> | |s| == 3 witness [DefaultLayer, DefaultLayer, DefaultLayer]

  /** `cb::CloudLayers`: the cloud-layer constant buffer. */
  datatype CloudLayers = CloudLayers(
    invViewMatrix: Mat4,
    cameraPosition: Vec3,
    time: real,
    sunDirection: Vec3,
    layerCount: nat,
    projScaleX: real,
    projScaleY: real,
    depthLinearizeParams: Vec2,
    layers: LayerTriple)

  /** The default buffer: the stratus, cumulus and cirrus presets, none of them enabled. */
  const DefaultCloudLayers: CloudLayers := CloudLayers(
    Identity, Vec3(0.0, 0.0, 0.0), 0.0, Vec3(0.0, -1.0, 0.0), 3,
    1.0, 1.0, Vec2(1.0, 1.0), [Stratus, Cumulus, Cirrus])

  /** `cb::CloudVolumes`: the cloud-volume area and shading. */
  datatype CloudVolumes = CloudVolumes(
    areaMin: Vec3,
    sharpness: real,
    areaMax: Vec3,
    lightScattering: real,
    cloudSizeMin: Vec3,
    maxLighting: real,
    cloudSizeMax: Vec3,
    minLighting: real,
    lightColor: Vec3,
    noiseInfluence: real,
    darkColor: Vec3,
    noiseTiling: real,
    sunDirection: Vec3,
    cloudCount: nat,
    depthFadeNear: real,
    depthFadeFar: real,
    edgeSoftness: real,
    density: real,
    windSpeed: real,
    windAngle: real,
    evolutionSpeed: real,
    seed: nat)

  const DefaultCloudVolumes: CloudVolumes := CloudVolumes(
    Vec3(-5000.0, 800.0, -5000.0), 0.85,
    Vec3(5000.0, 2500.0, 5000.0), 3.0,
    Vec3(800.0, 400.0, 800.0), 1.0,
    Vec3(2000.0, 800.0, 2000.0), 0.0,
    Vec3(1.0, 0.87, 0.66), 0.7,
    Vec3(0.2, 0.22, 0.28), 1.5,
    Vec3(0.577, -0.577, 0.577), 60,
    20.0, 400.0, 0.3, 1.0,
    0.01, 45.0, 0.1, 12345)
}
