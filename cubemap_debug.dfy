/**
 * `Cubemap_debug`: a full-screen view of the fog's atmosphere cubemap,
 * with a grid, for aligning it. It keeps no parameters of its own: the
 * fog parameters switch it on and supply the distance and the transform.
 * It draws only when the fog's cubemap debug flag is set and a cubemap is
 * given.
 *
 * The inverse of `projection * view` and the rotation built from
 * `cubemap_rotation`'s Euler angles are computed by glm and are passed in.
 */
module CubemapDebugPass {
  import opened Gpu
  import opened Wrappers
  import opened PostprocessFogParams
  import opened CubemapTransform

  const PostprocessVS: string := "postprocess.main_vs"
  const CubemapDebugPS: string := "cubemap_debug.main_ps"
  const OpaqueBlend: string := "opaque"
  const CubemapDebugCB: string := "cubemap_debug"

  /** The grid line width the pass always uses. */
  const GridThickness: real := 0.05

  /** `Cubemap_debug_input`. */
  datatype Input = Input(
    view: Mat4,
    projection: Mat4,
    cameraPosition: Vec3,
    width: nat,
    height: nat,
    cubemap: Handle,
    depthNear: Handle,
    depthFar: Handle)

  /** `Cubemap_debug::Constants`; the two `int` flags are integers. */
  datatype Constants = Constants(
    invViewProj: Mat4,
    cameraPosition: Vec3,
    debugDistance: real,
    transform: Packed,
    renderAtInfinity: int,
    showGrid: int,
    gridThickness: real)

  /**
   * `pack_constants`: the debug distance and the fog's cubemap transform,
   * whether to draw at infinity as 1 or 0, the grid always on at the fixed
   * thickness.
   */
  function PackConstants(p: FogParams, rotation: Rotation, input: Input, inverseViewProjection: Mat4): (cb: Constants)
    ensures cb.renderAtInfinity == 1 <==> p.cubemapDebugAtInfinity
    ensures cb.renderAtInfinity == 0 <==> !p.cubemapDebugAtInfinity
    ensures cb.showGrid == 1 && cb.gridThickness == GridThickness
    ensures cb.debugDistance == p.cubemapDebugDistance
    ensures cb.transform.scale == p.cubemapScale && cb.transform.offset == p.cubemapOffset
    ensures Rows(cb.transform) == rotation
  {
    PackInverse(rotation, p.cubemapScale, p.cubemapOffset);
    Constants(
      inverseViewProjection, input.cameraPosition, p.cubemapDebugDistance,
      Pack(rotation, p.cubemapScale, p.cubemapOffset),
      if p.cubemapDebugAtInfinity then 1 else 0, 1, GridThickness)
  }

  /**
   * Of the fog parameters only the debug distance, the at-infinity flag and
   * the transform reach the constants: two parameter sets that agree on
   * those pack alike.
   */
  lemma PackConstantsDependsOnDebugFields(p: FogParams, q: FogParams, rotation: Rotation, input: Input, inv: Mat4)
    requires p.cubemapDebugDistance == q.cubemapDebugDistance
    requires p.cubemapDebugAtInfinity == q.cubemapDebugAtInfinity
    requires p.cubemapScale == q.cubemapScale && p.cubemapOffset == q.cubemapOffset
    ensures PackConstants(p, rotation, input, inv) == PackConstants(q, rotation, input, inv)
  {
  }

  /** The calls of a drawn frame up to the output-merger bind. */
  function RenderSetup(input: Input): seq<Event> {
    [
      WriteConstants(CubemapDebugCB),
      SetVertexShader(PostprocessVS),
      SetPixelShader(CubemapDebugPS),
      BindConstantBuffer(Pixel, 0, CubemapDebugCB),
      BindSRVs(Pixel, 0, [input.cubemap, input.depthNear, input.depthFar])
    ]
  }

  /** Everything a drawn frame issues. */
  function RenderTrace(input: Input, outputRtv: Handle, noDepthState: Handle): seq<Event> {
    RenderSetup(input) + [SetRenderTargets([outputRtv], Null), SetBlendState(OpaqueBlend),
                          SetDepthStencilState(noDepthState, 0), Draw(3)]
  }

  /** A drawn frame issues one draw, into the output target. */
  lemma RenderTraceShape(input: Input, outputRtv: Handle, noDepthState: Handle)
    ensures Draws(RenderTrace(input, outputRtv, noDepthState)) == 1
    ensures BoundTargets(RenderTrace(input, outputRtv, noDepthState)) == [outputRtv]
  {
    var om := SetRenderTargets([outputRtv], Null);
    var states := [SetBlendState(OpaqueBlend), SetDepthStencilState(noDepthState, 0)];
    FullscreenPassShape(RenderSetup(input), om, states, Draw(3), []);
    assert RenderTrace(input, outputRtv, noDepthState) == RenderSetup(input) + [om] + states + [Draw(3)] + [];
  }

  /** At the draw, the cubemap and the two depth views sit at pixel slots 0 to 2. */
  lemma RenderTraceViews(input: Input, outputRtv: Handle, noDepthState: Handle)
    ensures BoundView(RenderTrace(input, outputRtv, noDepthState), Pixel, 0) == input.cubemap
    ensures BoundView(RenderTrace(input, outputRtv, noDepthState), Pixel, 1) == input.depthNear
    ensures BoundView(RenderTrace(input, outputRtv, noDepthState), Pixel, 2) == input.depthFar
  {
    var bind := BindSRVs(Pixel, 0, [input.cubemap, input.depthNear, input.depthFar]);
    var rest := [SetRenderTargets([outputRtv], Null), SetBlendState(OpaqueBlend), SetDepthStencilState(noDepthState, 0), Draw(3)];
    assert RenderTrace(input, outputRtv, noDepthState) == RenderSetup(input)[..4] + [bind] + rest;
    BoundViewAfter(RenderSetup(input)[..4], bind, rest, 0);
    BoundViewAfter(RenderSetup(input)[..4], bind, rest, 1);
    BoundViewAfter(RenderSetup(input)[..4], bind, rest, 2);
  }

  /** `Cubemap_debug`: what its constant buffer holds. */
  class CubemapDebug {
    var constants: Option<Constants>
    const noDepthState: Handle

    /** `Cubemap_debug(device, shaders)`: nothing uploaded. */
    constructor (noDepthState: Handle)
      ensures constants == None && this.noDepthState == noDepthState
    {
      constants := None;
      this.noDepthState := noDepthState;
    }

    /**
     * `render`: nothing unless the fog's cubemap debug flag is set and a
     * cubemap is given; otherwise the constants are packed from the fog
     * parameters and uploaded and one full-screen triangle is drawn.
     */
    method Render(outputRtv: Handle, input: Input, fogParams: FogParams, rotation: Rotation,
                  inverseViewProjection: Mat4)
      returns (trace: seq<Event>)
      modifies this`constants
      ensures !fogParams.cubemapDebugEnabled || input.cubemap == Null ==> trace == [] && constants == old(constants)
      ensures fogParams.cubemapDebugEnabled && input.cubemap != Null ==>
                constants == Some(PackConstants(fogParams, rotation, input, inverseViewProjection))
      ensures fogParams.cubemapDebugEnabled && input.cubemap != Null ==>
                trace == RenderTrace(input, outputRtv, noDepthState)
    {
      trace := [];
      if !fogParams.cubemapDebugEnabled {
        return;
      }
      if input.cubemap == Null {
        return;
      }
      constants := Some(PackConstants(fogParams, rotation, input, inverseViewProjection));
      trace := [WriteConstants(CubemapDebugCB), SetVertexShader(PostprocessVS), SetPixelShader(CubemapDebugPS),
                BindConstantBuffer(Pixel, 0, CubemapDebugCB),
                BindSRVs(Pixel, 0, [input.cubemap, input.depthNear, input.depthFar]),
                SetRenderTargets([outputRtv], Null), SetBlendState(OpaqueBlend),
                SetDepthStencilState(noDepthState, 0), Draw(3)];
    }
  }
}
