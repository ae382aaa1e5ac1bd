/**
 * `Skybox_override`: replaces the game's skybox with a full-screen pass
 * that samples a ground cubemap, blended with an optional sky cubemap. It
 * draws only when enabled and given a ground cubemap.
 *
 * The inverse of `projection * view` and the rotation built from the
 * alignment's Euler angles are computed by glm and are passed in.
 */
module SkyboxOverridePass {
  import opened Gpu
  import opened Wrappers
  import opened PostprocessParams
  import opened CubemapTransform

  const PostprocessVS: string := "postprocess.main_vs"
  const SkyboxPS: string := "postprocess_skybox.main_ps"
  const OpaqueBlend: string := "opaque"
  const SkyboxCB: string := "skybox_override"

  /** `Skybox_override_input`. */
  datatype Input = Input(
    view: Mat4,
    projection: Mat4,
    cameraPosition: Vec3,
    width: nat,
    height: nat,
    groundCubemap: Handle,
    skyCubemap: Handle,
    depthNear: Handle,
    depthFar: Handle,
    stencilNear: Handle,
    stencilFar: Handle)

  /** `Skybox_override::Constants`. */
  datatype Constants = Constants(
    invViewProj: Mat4,
    cameraPosition: Vec3,
    skyDistanceThreshold: real,
    cubemap: Packed,
    projFromViewM33: real,
    projFromViewM43: real,
    atmosDensity: real,
    horizonShift: real,
    horizonStart: real,
    horizonBlend: real,
    tint: Vec3,
    useAtmosphere: real,
    debugMode: real)

  /**
   * `pack_constants`: the frame inputs, the packed alignment, the two
   * projection terms the depth-to-distance conversion needs, the
   * atmosphere scalars, whether a sky cubemap exists, and the debug mode
   * as a float.
   */
  function PackConstants(p: SkyboxOverride, alignment: CubemapAlignment, rotation: Rotation, input: Input,
                         inverseViewProjection: Mat4, hasSkyCubemap: bool): (cb: Constants)
    ensures cb.useAtmosphere == 1.0 <==> hasSkyCubemap
    ensures cb.useAtmosphere == 0.0 <==> !hasSkyCubemap
    ensures cb.projFromViewM33 == input.projection[2][2] && cb.projFromViewM43 == input.projection[3][2]
    ensures cb.cubemap.scale == alignment.scale && cb.cubemap.offset == alignment.offset
    ensures Rows(cb.cubemap) == rotation
  {
    PackAlignmentFields(alignment, rotation, alignment.mipScale);
    Constants(
      inverseViewProjection, input.cameraPosition, p.skyDistanceThreshold,
      PackAlignment(alignment, rotation),
      input.projection[2][2], input.projection[3][2],
      p.atmosDensity, p.horizonShift, p.horizonStart, p.horizonBlend,
      p.tint, if hasSkyCubemap then 1.0 else 0.0,
      p.debugMode as real)
  }

  /** The parameters a shader can read back out of the constants, over `p`'s names and flag. */
  function Unpacked(cb: Constants, p: SkyboxOverride): SkyboxOverride {
    p.(skyDistanceThreshold := cb.skyDistanceThreshold, atmosDensity := cb.atmosDensity,
       horizonShift := cb.horizonShift, horizonStart := cb.horizonStart, horizonBlend := cb.horizonBlend,
       tint := cb.tint, debugMode := cb.debugMode.Floor)
  }

  /**
   * Every numeric parameter survives packing, the integer debug mode
   * included; the flag and the cubemap names do not enter the constants.
   */
  lemma PackConstantsInverse(p: SkyboxOverride, alignment: CubemapAlignment, rotation: Rotation, input: Input,
                             inv: Mat4, hasSky: bool, q: SkyboxOverride)
    requires q == p.(enabled := q.enabled, groundCubemap := q.groundCubemap, skyCubemap := q.skyCubemap)
    ensures Unpacked(PackConstants(p, alignment, rotation, input, inv, hasSky), p) == p
    ensures PackConstants(q, alignment, rotation, input, inv, hasSky) == PackConstants(p, alignment, rotation, input, inv, hasSky)
  {
    assert (p.debugMode as real).Floor == p.debugMode;
  }

  /** The six views, ground cubemap first, at slots 0 to 5. */
  function Views(input: Input): (views: seq<Handle>)
    ensures |views| == 6 && views[0] == input.groundCubemap && views[1] == input.skyCubemap
  {
    [input.groundCubemap, input.skyCubemap, input.depthNear, input.depthFar, input.stencilNear, input.stencilFar]
  }

  /** The calls of a drawn frame up to the output-merger bind. */
  function RenderSetup(input: Input): seq<Event> {
    [
      WriteConstants(SkyboxCB),
      SetVertexShader(PostprocessVS),
      SetPixelShader(SkyboxPS),
      BindConstantBuffer(Pixel, 1, SkyboxCB),
      BindSRVs(Pixel, 0, Views(input))
    ]
  }

  /** Everything a drawn frame issues. */
  function RenderTrace(input: Input, outputRtv: Handle, noDepthState: Handle): seq<Event> {
    RenderSetup(input) + [SetRenderTargets([outputRtv], Null), SetBlendState(OpaqueBlend),
                          SetDepthStencilState(noDepthState, 0), Draw(3)]
  }

  /** A drawn frame issues one draw, into the output target. */
  lemma RenderTraceShape(input: Input, outputRtv: Handle, noDepthState: Handle)
    ensures Draws(RenderTrace(input, outputRtv, noDepthState)) == 1
    ensures BoundTargets(RenderTrace(input, outputRtv, noDepthState)) == [outputRtv]
  {
    var om := SetRenderTargets([outputRtv], Null);
    var states := [SetBlendState(OpaqueBlend), SetDepthStencilState(noDepthState, 0)];
    FullscreenPassShape(RenderSetup(input), om, states, Draw(3), []);
    assert RenderTrace(input, outputRtv, noDepthState) == RenderSetup(input) + [om] + states + [Draw(3)] + [];
  }

  /** At the draw, the six views sit at pixel slots 0 to 5, ground cubemap first. */
  lemma RenderTraceViews(input: Input, outputRtv: Handle, noDepthState: Handle)
    ensures forall slot :: 0 <= slot < 6 ==>
              BoundView(RenderTrace(input, outputRtv, noDepthState), Pixel, slot) == Views(input)[slot]
  {
    var front := RenderSetup(input)[..4];
    var bind := BindSRVs(Pixel, 0, Views(input));
    var rest := [SetRenderTargets([outputRtv], Null), SetBlendState(OpaqueBlend), SetDepthStencilState(noDepthState, 0), Draw(3)];
    assert RenderTrace(input, outputRtv, noDepthState) == front + [bind] + rest;
    forall slot | 0 <= slot < 6
      ensures BoundView(RenderTrace(input, outputRtv, noDepthState), Pixel, slot) == Views(input)[slot]
    {
      BoundViewAfter(front, bind, rest, slot);
    }
  }

  /** `Skybox_override`: its parameters and what its constant buffer holds. */
  class Skybox {
    var params: SkyboxOverride
    var constants: Option<Constants>
    const noDepthState: Handle

    /** `Skybox_override(device, shaders)`: default parameters, nothing uploaded. */
    constructor (noDepthState: Handle)
      ensures params == DefaultSkyboxOverride && constants == None && this.noDepthState == noDepthState
    {
      params := DefaultSkyboxOverride;
      constants := None;
      this.noDepthState := noDepthState;
    }

    /** `params(p)`. */
    method SetParams(p: SkyboxOverride)
      modifies this`params
      ensures params == p
    {
      params := p;
    }

    /** `params()`. */
    function Params(): SkyboxOverride
      reads this
    {
      params
    }

    /**
     * `render`: nothing when disabled or without a ground cubemap. Otherwise
     * the constants are packed, with the atmosphere on exactly when a sky
     * cubemap is given, uploaded, and one full-screen triangle is drawn.
     */
    method Render(outputRtv: Handle, alignment: CubemapAlignment, rotation: Rotation, input: Input,
                  inverseViewProjection: Mat4)
      returns (trace: seq<Event>)
      modifies this`constants
      ensures !params.enabled || input.groundCubemap == Null ==> trace == [] && constants == old(constants)
      ensures params.enabled && input.groundCubemap != Null ==>
                constants == Some(PackConstants(params, alignment, rotation, input, inverseViewProjection,
                                                input.skyCubemap != Null))
      ensures params.enabled && input.groundCubemap != Null ==> trace == RenderTrace(input, outputRtv, noDepthState)
    {
      trace := [];
      if !params.enabled {
        return;
      }
      if input.groundCubemap == Null {
        return;
      }
      var hasSkyCubemap := input.skyCubemap != Null;
      constants := Some(PackConstants(params, alignment, rotation, input, inverseViewProjection, hasSkyCubemap));
      trace := [WriteConstants(SkyboxCB), SetVertexShader(PostprocessVS), SetPixelShader(SkyboxPS),
                BindConstantBuffer(Pixel, 1, SkyboxCB), BindSRVs(Pixel, 0, Views(input)),
                SetRenderTargets([outputRtv], Null), SetBlendState(OpaqueBlend),
                SetDepthStencilState(noDepthState, 0), Draw(3)];
    }
  }
}
