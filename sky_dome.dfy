/**
 * `Sky_dome`: a full-screen pass that draws the atmosphere cubemap over
 * the sky with premultiplied blending. It draws only when enabled and
 * given an atmosphere cubemap.
 *
 * The inverse of `projection * view` and the rotation built from
 * `cubemap_rotation`'s Euler angles are computed by glm and are passed in.
 */
module SkyDomePass {
  import opened Gpu
  import opened Wrappers
  import opened PostprocessSkyParams
  import opened CubemapTransform

  const PostprocessVS: string := "postprocess.main_vs"
  const SkyDomePS: string := "sky_dome.main_ps"
  const PremultipliedBlend: string := "premultiplied"
  const SkyDomeCB: string := "sky_dome"

  /** `Sky_dome_input`. */
  datatype Input = Input(
    view: Mat4,
    projection: Mat4,
    cameraPosition: Vec3,
    width: nat,
    height: nat,
    atmosphereCubemap: Handle,
    depthNear: Handle,
    depthFar: Handle)

  /** `Sky_dome::Constants`. */
  datatype Constants = Constants(
    invViewProj: Mat4,
    cameraPosition: Vec3,
    atmosphereDensity: real,
    horizonShift: real,
    horizonStart: real,
    horizonBlend: real,
    fadeStartHeight: real,
    fadeEndHeight: real,
    tint: Vec3,
    cubemap: Packed)

  /** `pack_constants`: the frame inputs, the dome scalars and the padded cubemap transform. */
  function PackConstants(p: SkyDomeParams, rotation: Rotation, input: Input, inverseViewProjection: Mat4): (cb: Constants)
    ensures cb.cubemap.row0.w == 0.0 && cb.cubemap.row1.w == 0.0 && cb.cubemap.row2.w == 0.0
    ensures cb.cubemap.scale == p.cubemapScale && cb.cubemap.offset == p.cubemapOffset
    ensures Rows(cb.cubemap) == rotation
  {
    PackInverse(rotation, p.cubemapScale, p.cubemapOffset);
    Constants(
      inverseViewProjection, input.cameraPosition, p.atmosphereDensity,
      p.horizonShift, p.horizonStart, p.horizonBlend, p.fadeStartHeight,
      p.fadeEndHeight, p.tint,
      Pack(rotation, p.cubemapScale, p.cubemapOffset))
  }

  /** The parameters a shader can read back out of the constants, over `p`'s flag, name and angles. */
  function Unpacked(cb: Constants, p: SkyDomeParams): SkyDomeParams {
    p.(atmosphereDensity := cb.atmosphereDensity, horizonShift := cb.horizonShift,
       horizonStart := cb.horizonStart, horizonBlend := cb.horizonBlend,
       fadeStartHeight := cb.fadeStartHeight, fadeEndHeight := cb.fadeEndHeight,
       tint := cb.tint, cubemapScale := cb.cubemap.scale, cubemapOffset := cb.cubemap.offset)
  }

  /**
   * The scalars, tint, scale and offset are copied unchanged; the flag and
   * the texture name do not enter the constants, and the Euler angles enter
   * only through the rotation.
   */
  lemma PackConstantsInverse(p: SkyDomeParams, rotation: Rotation, input: Input, inv: Mat4, q: SkyDomeParams)
    requires q == p.(enabled := q.enabled, atmosphereTextureName := q.atmosphereTextureName,
                     cubemapRotation := q.cubemapRotation)
    ensures Unpacked(PackConstants(p, rotation, input, inv), p) == p
    ensures PackConstants(q, rotation, input, inv) == PackConstants(p, rotation, input, inv)
  {
  }

  /** The calls of a drawn frame up to the output-merger bind. */
  function RenderSetup(input: Input): seq<Event> {
    [
      WriteConstants(SkyDomeCB),
      SetVertexShader(PostprocessVS),
      SetPixelShader(SkyDomePS),
      BindConstantBuffer(Pixel, 1, SkyDomeCB),
      BindSRVs(Pixel, 0, [input.atmosphereCubemap, input.depthNear, input.depthFar])
    ]
  }

  /** Everything a drawn frame issues. */
  function RenderTrace(input: Input, outputRtv: Handle, noDepthState: Handle): seq<Event> {
    RenderSetup(input) + [SetRenderTargets([outputRtv], Null), SetBlendState(PremultipliedBlend),
                          SetDepthStencilState(noDepthState, 0), Draw(3)]
  }

  /** A drawn frame issues one draw, into the output target. */
  lemma RenderTraceShape(input: Input, outputRtv: Handle, noDepthState: Handle)
    ensures Draws(RenderTrace(input, outputRtv, noDepthState)) == 1
    ensures BoundTargets(RenderTrace(input, outputRtv, noDepthState)) == [outputRtv]
  {
    var om := SetRenderTargets([outputRtv], Null);
    var states := [SetBlendState(PremultipliedBlend), SetDepthStencilState(noDepthState, 0)];
    FullscreenPassShape(RenderSetup(input), om, states, Draw(3), []);
    assert RenderTrace(input, outputRtv, noDepthState) == RenderSetup(input) + [om] + states + [Draw(3)] + [];
  }

  /** At the draw, the atmosphere cubemap and the two depth views sit at pixel slots 0 to 2. */
  lemma RenderTraceViews(input: Input, outputRtv: Handle, noDepthState: Handle)
    ensures BoundView(RenderTrace(input, outputRtv, noDepthState), Pixel, 0) == input.atmosphereCubemap
    ensures BoundView(RenderTrace(input, outputRtv, noDepthState), Pixel, 1) == input.depthNear
    ensures BoundView(RenderTrace(input, outputRtv, noDepthState), Pixel, 2) == input.depthFar
  {
    var bind := BindSRVs(Pixel, 0, [input.atmosphereCubemap, input.depthNear, input.depthFar]);
    var rest := [SetRenderTargets([outputRtv], Null), SetBlendState(PremultipliedBlend), SetDepthStencilState(noDepthState, 0), Draw(3)];
    assert RenderTrace(input, outputRtv, noDepthState) == RenderSetup(input)[..4] + [bind] + rest;
    BoundViewAfter(RenderSetup(input)[..4], bind, rest, 0);
    BoundViewAfter(RenderSetup(input)[..4], bind, rest, 1);
    BoundViewAfter(RenderSetup(input)[..4], bind, rest, 2);
  }

  /** `Sky_dome`: its parameters and what its constant buffer holds. */
  class SkyDome {
    var params: SkyDomeParams
    var constants: Option<Constants>
    const noDepthState: Handle

    /** `Sky_dome(device, shaders)`: default parameters, nothing uploaded. */
    constructor (noDepthState: Handle)
      ensures params == DefaultSkyDome && constants == None && this.noDepthState == noDepthState
    {
      params := DefaultSkyDome;
      constants := None;
      this.noDepthState := noDepthState;
    }

    /** `params(p)`. */
    method SetParams(p: SkyDomeParams)
      modifies this`params
      ensures params == p
    {
      params := p;
    }

    /** `params()`. */
    function Params(): SkyDomeParams
      reads this
    {
      params
    }

    /**
     * `render`: nothing when disabled or without an atmosphere cubemap;
     * otherwise the constants are packed and uploaded and one full-screen
     * triangle is drawn.
     */
    method Render(outputRtv: Handle, rotation: Rotation, input: Input, inverseViewProjection: Mat4)
      returns (trace: seq<Event>)
      modifies this`constants
      ensures !params.enabled || input.atmosphereCubemap == Null ==> trace == [] && constants == old(constants)
      ensures params.enabled && input.atmosphereCubemap != Null ==>
                constants == Some(PackConstants(params, rotation, input, inverseViewProjection))
      ensures params.enabled && input.atmosphereCubemap != Null ==>
                trace == RenderTrace(input, outputRtv, noDepthState)
    {
      trace := [];
      if !params.enabled {
        return;
      }
      if input.atmosphereCubemap == Null {
        return;
      }
      constants := Some(PackConstants(params, rotation, input, inverseViewProjection));
      trace := [WriteConstants(SkyDomeCB), SetVertexShader(PostprocessVS), SetPixelShader(SkyDomePS),
                BindConstantBuffer(Pixel, 1, SkyDomeCB),
                BindSRVs(Pixel, 0, [input.atmosphereCubemap, input.depthNear, input.depthFar]),
                SetRenderTargets([outputRtv], Null), SetBlendState(PremultipliedBlend),
                SetDepthStencilState(noDepthState, 0), Draw(3)];
    }
  }
}
