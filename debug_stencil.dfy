/**
 * `Debug_stencil`: a full-screen view of a depth or stencil buffer. Unlike
 * the other full-screen passes it is not gated on its views: null views
 * are bound as they are, and after the draw both view slots are reset to
 * null.
 */
module DebugStencilPass {
  import opened Gpu
  import opened Wrappers

  const PostprocessVS: string := "postprocess.main_vs"
  const DebugStencilPS: string := "debug_stencil.main_ps"
  const OpaqueBlend: string := "opaque"
  const DebugStencilCB: string := "debug_stencil"

  /**
   * `Debug_stencil_params`. `mode` is any `int`: 0 depth, 1 stencil colour,
   * 2 stencil raw, 3 combined are the values the shader knows.
   */
  datatype Params = Params(enabled: bool, mode: int, useNear: bool)

  /** Disabled, stencil colour, the near scene. */
  const DefaultParams: Params := Params(false, 1, true)

  /** `Debug_stencil::Constants`. */
  datatype Constants = Constants(mode: int, useNear: int)

  /** The constants a render uploads: the mode as it is, the scene choice as 1 or 0. */
  function PackConstants(p: Params): (cb: Constants)
    ensures cb.mode == p.mode
    ensures cb.useNear == 1 <==> p.useNear
    ensures cb.useNear == 0 <==> !p.useNear
  {
    Constants(p.mode, if p.useNear then 1 else 0)
  }

  /** The parameters a shader can read back out of the constants, with the switch given. */
  function Unpacked(cb: Constants, enabled: bool): Params {
    Params(enabled, cb.mode, cb.useNear == 1)
  }

  /**
   * The parameters read back from the packed constants, and two parameter
   * sets that pack alike agree on mode and scene choice.
   */
  lemma PackConstantsInverse(p: Params)
    ensures Unpacked(PackConstants(p), p.enabled) == p
    ensures forall q: Params :: PackConstants(q) == PackConstants(p) ==> q.mode == p.mode && q.useNear == p.useNear
  {
  }

  /** The calls of a render up to the output-merger bind. */
  function RenderSetup(depthSrv: Handle, stencilSrv: Handle): seq<Event> {
    [
      WriteConstants(DebugStencilCB),
      SetVertexShader(PostprocessVS),
      SetPixelShader(DebugStencilPS),
      BindConstantBuffer(Pixel, 0, DebugStencilCB),
      BindSRVs(Pixel, 0, [depthSrv, stencilSrv])
    ]
  }

  /** The call after the draw that clears both view slots. */
  const Unbind: Event := BindSRVs(Pixel, 0, [Null, Null])

  /** Everything an enabled render issues. */
  function RenderTrace(outputRtv: Handle, depthSrv: Handle, stencilSrv: Handle, depthState: Handle): seq<Event> {
    RenderSetup(depthSrv, stencilSrv) + [SetRenderTargets([outputRtv], Null), SetBlendState(OpaqueBlend),
                                         SetDepthStencilState(depthState, 0), Draw(3), Unbind]
  }

  /** Whatever the views, an enabled render draws once, into the output target. */
  lemma RenderTraceShape(outputRtv: Handle, depthSrv: Handle, stencilSrv: Handle, depthState: Handle)
    ensures Draws(RenderTrace(outputRtv, depthSrv, stencilSrv, depthState)) == 1
    ensures BoundTargets(RenderTrace(outputRtv, depthSrv, stencilSrv, depthState)) == [outputRtv]
  {
    var om := SetRenderTargets([outputRtv], Null);
    var states := [SetBlendState(OpaqueBlend), SetDepthStencilState(depthState, 0)];
    FullscreenPassShape(RenderSetup(depthSrv, stencilSrv), om, states, Draw(3), [Unbind]);
    assert RenderTrace(outputRtv, depthSrv, stencilSrv, depthState)
        == RenderSetup(depthSrv, stencilSrv) + [om] + states + [Draw(3)] + [Unbind];
  }

  /** The draw samples the given depth and stencil views, and afterwards both view slots are null. */
  lemma RenderTraceViews(outputRtv: Handle, depthSrv: Handle, stencilSrv: Handle, depthState: Handle)
    ensures var t := RenderTrace(outputRtv, depthSrv, stencilSrv, depthState);
            BoundView(t[..|t| - 1], Pixel, 0) == depthSrv && BoundView(t[..|t| - 1], Pixel, 1) == stencilSrv
    ensures var t := RenderTrace(outputRtv, depthSrv, stencilSrv, depthState);
            BoundView(t, Pixel, 0) == Null && BoundView(t, Pixel, 1) == Null
  {
    var t := RenderTrace(outputRtv, depthSrv, stencilSrv, depthState);
    var front := RenderSetup(depthSrv, stencilSrv)[..4];
    var bind := BindSRVs(Pixel, 0, [depthSrv, stencilSrv]);
    var rest := [SetRenderTargets([outputRtv], Null), SetBlendState(OpaqueBlend), SetDepthStencilState(depthState, 0), Draw(3)];
    assert t[..|t| - 1] == front + [bind] + rest;
    BoundViewAfter(front, bind, rest, 0);
    BoundViewAfter(front, bind, rest, 1);
    assert t == t[..|t| - 1] + [Unbind] + [];
    BoundViewAfter(t[..|t| - 1], Unbind, [], 0);
    BoundViewAfter(t[..|t| - 1], Unbind, [], 1);
  }

  /** `Debug_stencil`: its parameters and what its constant buffer holds. */
  class DebugStencil {
    var params: Params
    var constants: Option<Constants>
    const depthState: Handle

    /** `Debug_stencil(device, shaders)`: default parameters, nothing uploaded. */
    constructor (depthState: Handle)
      ensures params == DefaultParams && constants == None && this.depthState == depthState
    {
      params := DefaultParams;
      constants := None;
      this.depthState := depthState;
    }

    /** Writing through the mutable `params()` reference. */
    method SetParams(p: Params)
      modifies this`params
      ensures params == p
    {
      params := p;
    }

    /** `params()`. */
    function GetParams(): Params
      reads this
    {
      params
    }

    /**
     * `render`: nothing when disabled. Otherwise the constants are uploaded,
     * the two views are bound whether or not they are null, one full-screen
     * triangle is drawn and the two view slots are cleared.
     */
    method Render(outputRtv: Handle, width: nat, height: nat, depthSrv: Handle, stencilSrv: Handle)
      returns (trace: seq<Event>)
      modifies this`constants
      ensures !params.enabled ==> trace == [] && constants == old(constants)
      ensures params.enabled ==> constants == Some(PackConstants(params))
      ensures params.enabled ==> trace == RenderTrace(outputRtv, depthSrv, stencilSrv, depthState)
    {
      trace := [];
      if !params.enabled {
        return;
      }
      constants := Some(Constants(params.mode, if params.useNear then 1 else 0));
      trace := [WriteConstants(DebugStencilCB), SetVertexShader(PostprocessVS), SetPixelShader(DebugStencilPS),
                BindConstantBuffer(Pixel, 0, DebugStencilCB), BindSRVs(Pixel, 0, [depthSrv, stencilSrv]),
                SetRenderTargets([outputRtv], Null), SetBlendState(OpaqueBlend),
                SetDepthStencilState(depthState, 0), Draw(3), BindSRVs(Pixel, 0, [Null, Null])];
    }
  }
}
