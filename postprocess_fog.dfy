/**
 * `Postprocess_fog`: the full-screen fog pass. It keeps an enable flag, a
 * debug mode and a set of fog constants that its setters edit field by
 * field. `apply` uploads the constants it is handed (not the stored ones),
 * clears the context state and draws one triangle with the shader that the
 * debug mode selects.
 */
module PostprocessFog {
  import opened Gpu
  import opened ConstantBuffers
  import opened Wrappers
  import ControlCodecs

  /** `Fog_debug_mode`. */
  datatype FogDebugMode = NoDebug | DepthDebug | WorldYDebug

  const FogVS: string := "postprocess_fog.main_vs"
  const FogPS: string := "postprocess_fog.main_ps"
  const DebugDepthPS: string := "postprocess_fog.debug_depth_ps"
  const DebugWorldYPS: string := "postprocess_fog.debug_world_y_ps"
  const FogCB: string := "postprocess_fog"

  /** The slot `apply` binds the fog constants at (`b4`). */
  const FogSlot: nat := 4

  /** `Postprocess_fog_input`. */
  datatype Input = Input(rtv: Handle, sceneSrv: Handle, depthSrv: Handle, width: nat, height: nat)

  /** The pixel shader `apply` selects: one per debug mode, the main shader otherwise. */
  function PixelShader(mode: FogDebugMode): (ps: string)
    ensures ps == DebugDepthPS <==> mode == DepthDebug
    ensures ps == DebugWorldYPS <==> mode == WorldYDebug
    ensures ps == FogPS <==> mode == NoDebug
  {
    match mode
    case DepthDebug => DebugDepthPS
    case WorldYDebug => DebugWorldYPS
    case NoDebug => FogPS
  }

  /** The calls of `apply` made before the output-merger bind, after the upload. */
  function ApplySetup(input: Input, mode: FogDebugMode): seq<Event> {
    [
      ClearState,
      SetVertexShader(FogVS),
      SetPixelShader(PixelShader(mode)),
      BindSRVs(Pixel, 0, [input.sceneSrv, input.depthSrv]),
      BindConstantBuffer(Pixel, FogSlot, FogCB)
    ]
  }

  /** The upload, made only when mapping the buffer succeeded. */
  function Upload(mapSucceeds: bool): seq<Event> {
    if mapSucceeds then [WriteConstants(FogCB)] else []
  }

  /** Everything an enabled `apply` issues. */
  function ApplyTrace(input: Input, mode: FogDebugMode, mapSucceeds: bool): seq<Event> {
    Upload(mapSucceeds) + ApplySetup(input, mode) + [SetRenderTargets([input.rtv], Null), Draw(3)]
  }

  /**
   * Whether or not the upload happened, an enabled pass draws exactly once,
   * into the input target; a failed map only drops the upload.
   */
  lemma ApplyTraceShape(input: Input, mode: FogDebugMode, mapSucceeds: bool)
    ensures Draws(ApplyTrace(input, mode, mapSucceeds)) == 1
    ensures BoundTargets(ApplyTrace(input, mode, mapSucceeds)) == [input.rtv]
    ensures ApplyTrace(input, mode, mapSucceeds) == Upload(mapSucceeds) + ApplyTrace(input, mode, false)
  {
    var setup := Upload(mapSucceeds) + ApplySetup(input, mode);
    FullscreenPassShape(setup, SetRenderTargets([input.rtv], Null), [], Draw(3), []);
    assert ApplyTrace(input, mode, mapSucceeds) == setup + [SetRenderTargets([input.rtv], Null)] + [] + [Draw(3)] + [];
  }

  /** At the draw, after the state was cleared, scene and depth sit at pixel slots 0 and 1. */
  lemma ApplyTraceViews(input: Input, mode: FogDebugMode, mapSucceeds: bool)
    ensures BoundView(ApplyTrace(input, mode, mapSucceeds), Pixel, 0) == input.sceneSrv
    ensures BoundView(ApplyTrace(input, mode, mapSucceeds), Pixel, 1) == input.depthSrv
  {
    var bind := BindSRVs(Pixel, 0, [input.sceneSrv, input.depthSrv]);
    var rest := [BindConstantBuffer(Pixel, FogSlot, FogCB), SetRenderTargets([input.rtv], Null), Draw(3)];
    var front := Upload(mapSucceeds) + [ClearState, SetVertexShader(FogVS), SetPixelShader(PixelShader(mode))];
    assert ApplyTrace(input, mode, mapSucceeds) == front + [bind] + rest;
    BoundViewAfter(front, bind, rest, 0);
    BoundViewAfter(front, bind, rest, 1);
  }

  /** `Postprocess_fog`. */
  class Postprocess {
    var enabled: bool
    var debugMode: FogDebugMode
    var fogParams: Fog
    /** What the constant buffer holds: nothing until the first successful upload. */
    var constants: Option<Fog>

    /** `Postprocess_fog(device, shaders)`: disabled, no debug view, default constants. */
    constructor ()
      ensures !enabled && debugMode == NoDebug && fogParams == DefaultFog && constants == None
    {
      enabled := false;
      debugMode := NoDebug;
      fogParams := DefaultFog;
      constants := None;
    }

    /** `enabled(value)`. */
    method SetEnabled(value: bool)
      modifies this`enabled
      ensures enabled == value
    {
      enabled := value;
    }

    /** `enabled()`. */
    function Enabled(): bool
      reads this
    {
      enabled
    }

    /** `debug_mode(mode)`. */
    method SetDebugMode(mode: FogDebugMode)
      modifies this`debugMode
      ensures debugMode == mode
    {
      debugMode := mode;
    }

    /** `debug_mode()`. */
    function DebugMode(): FogDebugMode
      reads this
    {
      debugMode
    }

    /** `fog_params()`. */
    function FogParams(): Fog
      reads this
    {
      fogParams
    }

    /** Writing a whole record through the mutable `fog_params()` reference. */
    method SetFogParams(p: Fog)
      modifies this`fogParams
      ensures fogParams == p
    {
      fogParams := p;
    }

    /** `set_fog_color`: the colour only. */
    method SetFogColor(color: Vec4)
      modifies this`fogParams
      ensures fogParams == old(fogParams).(fogColor := color)
    {
      fogParams := fogParams.(fogColor := color);
    }

    /** `set_fog_range`: start and end only. */
    method SetFogRange(start: real, end: real)
      modifies this`fogParams
      ensures fogParams == old(fogParams).(fogStart := start, fogEnd := end)
    {
      fogParams := fogParams.(fogStart := start, fogEnd := end);
    }

    /** `set_height_fog`: base, ceiling, density and alpha only. */
    method SetHeightFog(base: real, ceiling: real, density: real, alpha: real)
      modifies this`fogParams
      ensures fogParams == old(fogParams).(heightBase := base, heightCeiling := ceiling,
                                           atmosDensity := density, fogAlpha := alpha)
    {
      fogParams := fogParams.(heightBase := base, heightCeiling := ceiling, atmosDensity := density, fogAlpha := alpha);
    }

    /** `set_height_falloff`. */
    method SetHeightFalloff(falloff: real)
      modifies this`fogParams
      ensures fogParams == old(fogParams).(heightFalloff := falloff)
    {
      fogParams := fogParams.(heightFalloff := falloff);
    }

    /** `set_ceiling_fade`. */
    method SetCeilingFade(fade: real)
      modifies this`fogParams
      ensures fogParams == old(fogParams).(ceilingFade := fade)
    {
      fogParams := fogParams.(ceilingFade := fade);
    }

    /** `set_fog_disc`: the four disc fields only. */
    method SetFogDisc(centerX: real, centerZ: real, radius: real, edgeFade: real)
      modifies this`fogParams
      ensures fogParams == old(fogParams).(fogDiscCenterX := centerX, fogDiscCenterZ := centerZ,
                                           fogDiscRadius := radius, fogDiscEdgeFade := edgeFade)
    {
      fogParams := fogParams.(fogDiscCenterX := centerX, fogDiscCenterZ := centerZ,
                              fogDiscRadius := radius, fogDiscEdgeFade := edgeFade);
    }

    /** `set_blend_additive`: stored as 1 or 0. */
    method SetBlendAdditive(additive: bool)
      modifies this`fogParams
      ensures fogParams == old(fogParams).(blendAdditive := ControlCodecs.Flag(additive))
      ensures fogParams.blendAdditive == 1 <==> additive
    {
      fogParams := fogParams.(blendAdditive := if additive then 1 else 0);
    }

    /** `set_apply_to_sky`: stored as 1 or 0. */
    method SetApplyToSky(apply: bool)
      modifies this`fogParams
      ensures fogParams == old(fogParams).(applyToSky := ControlCodecs.Flag(apply))
      ensures fogParams.applyToSky == 1 <==> apply
    {
      fogParams := fogParams.(applyToSky := if apply then 1 else 0);
    }

    /**
     * `apply`: nothing when disabled. Otherwise the constants passed in are
     * copied into the buffer when mapping it succeeds, and the pass draws
     * either way.
     */
    method Apply(input: Input, fogConstants: Fog, mapSucceeds: bool) returns (trace: seq<Event>)
      modifies this`constants
      ensures !enabled ==> trace == [] && constants == old(constants)
      ensures enabled ==> trace == ApplyTrace(input, debugMode, mapSucceeds)
      ensures enabled ==> constants == if mapSucceeds then Some(fogConstants) else old(constants)
    {
      trace := [];
      if !enabled {
        return;
      }
      if mapSucceeds {
        constants := Some(fogConstants);
        trace := [WriteConstants(FogCB)];
      }
      var ps := FogPS;
      match debugMode {
        case DepthDebug => ps := DebugDepthPS;
        case WorldYDebug => ps := DebugWorldYPS;
        case NoDebug =>
      }
      trace := trace + [ClearState, SetVertexShader(FogVS), SetPixelShader(ps),
                        BindSRVs(Pixel, 0, [input.sceneSrv, input.depthSrv]),
                        BindConstantBuffer(Pixel, FogSlot, FogCB),
                        SetRenderTargets([input.rtv], Null), Draw(3)];
    }
  }
}
