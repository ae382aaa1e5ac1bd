/**
 * The depth/stencil debug visualizer.
 *
 * It owns an 8-state mode automaton driven by two hotkeys (toggle and
 * cycle), a rising-edge key detector over 256 virtual-key slots, a lazily
 * filled cache of 256 stencil-EQUAL depth-stencil states, and the per-mode
 * draw dispatch that turns one frame into fullscreen passes.
 *
 * `GetAsyncKeyState` is the `held` parameter, the set of virtual keys
 * currently down; what the device returns
 * when asked to create a depth-stencil state is the `created` / `create`
 * parameter (a null handle when creation fails).
 */
module DebugVisualizer {
  import opened Gpu
  import DepthLinearize

  type Byte = n: nat | n < 256
  type U32 = n: nat | n < 0x1_0000_0000

  // ---------------------------------------------------------------------------
  // Modes, names, palettes
  // ---------------------------------------------------------------------------

  datatype Mode =
    | None
    | DepthLinear | DepthLog | DepthRaw
    | StencilNonzero | StencilValues | StencilBits
    | Combined

  /** `Debug_visualizer_mode::_count` */
  const ModeCount: nat := 8

  /** The enumerator's underlying value. */
  function Ordinal(m: Mode): (n: nat)
    ensures n < ModeCount
  {
    match m
    case None => 0
    case DepthLinear => 1
    case DepthLog => 2
    case DepthRaw => 3
    case StencilNonzero => 4
    case StencilValues => 5
    case StencilBits => 6
    case Combined => 7
  }

  /** `static_cast<Debug_visualizer_mode>(n)` for an in-range n. */
  function FromOrdinal(n: nat): (m: Mode)
    requires n < ModeCount
    ensures Ordinal(m) == n
  {
    if n == 0 then None
    else if n == 1 then DepthLinear
    else if n == 2 then DepthLog
    else if n == 3 then DepthRaw
    else if n == 4 then StencilNonzero
    else if n == 5 then StencilValues
    else if n == 6 then StencilBits
    else Combined
  }

  lemma OrdinalInjective(a: Mode, b: Mode)
    ensures Ordinal(a) == Ordinal(b) ==> a == b
  {
  }

  datatype CombinedStencilMode = Nonzero | Values | Bitmask

  const ModeNames: seq<string> := [
    "None",
    "Depth (Linear)",
    "Depth (Logarithmic)",
    "Depth (Raw)",
    "Stencil (Non-Zero)",
    "Stencil (Values)",
    "Stencil (Bitmask)",
    "Combined"
  ]

  const CombinedStencilModeNames: seq<string> := ["Non-Zero", "Values", "Bitmask"]

  /** The display name of a mode: the table entry at its ordinal. */
  function ModeName(m: Mode): (s: string)
    ensures |ModeNames| == ModeCount && s == ModeNames[Ordinal(m)]
  {
    ModeNames[Ordinal(m)]
  }

  /** One name per enumerator, in enum order, no two alike. */
  lemma ModeNamesMatchEnum()
    ensures |ModeNames| == ModeCount
    ensures forall m: Mode :: ModeName(m) == ModeNames[Ordinal(m)]
    ensures ModeName(None) == "None" && ModeName(Combined) == "Combined"
    ensures |CombinedStencilModeNames| == 3
    ensures forall i, j :: 0 <= i < j < |ModeNames| ==> ModeNames[i] != ModeNames[j]
  {
  }

  /** The name tells the mode: two modes shown under one name are the same mode. */
  lemma {:induction false} ModeNameInjective(m: Mode, n: Mode)
    ensures ModeName(m) == ModeName(n) ==> m == n
  {
    ModeNamesMatchEnum();
    OrdinalInjective(m, n);
  }

  /** Colours per stencil value; index 0 is fully transparent and never drawn. */
  const StencilValueColors: seq<Color> := [
    Rgba(0.0, 0.0, 0.0, 0.0),
    Rgba(1.0, 0.2, 0.2, 0.7),
    Rgba(0.2, 1.0, 0.2, 0.7),
    Rgba(0.2, 0.4, 1.0, 0.7),
    Rgba(1.0, 1.0, 0.2, 0.7),
    Rgba(1.0, 0.2, 1.0, 0.7),
    Rgba(0.2, 1.0, 1.0, 0.7),
    Rgba(1.0, 0.6, 0.2, 0.7),
    Rgba(0.6, 0.2, 1.0, 0.7)
  ]

  /** One colour per stencil bit 0..7. */
  const StencilBitColors: seq<Color> := [
    Rgba(1.0, 0.0, 0.0, 0.5),
    Rgba(0.0, 1.0, 0.0, 0.5),
    Rgba(0.0, 0.0, 1.0, 0.5),
    Rgba(1.0, 1.0, 0.0, 0.5),
    Rgba(1.0, 0.0, 1.0, 0.5),
    Rgba(0.0, 1.0, 1.0, 0.5),
    Rgba(1.0, 0.5, 0.0, 0.5),
    Rgba(0.5, 0.0, 1.0, 0.5)
  ]

  lemma PalettesShape()
    ensures |StencilValueColors| == 9 && StencilValueColors[0] == Rgba(0.0, 0.0, 0.0, 0.0)
    ensures forall i :: 1 <= i < 9 ==> StencilValueColors[i].Rgba? && StencilValueColors[i].a == 0.7
    ensures |StencilBitColors| == 8
    ensures forall i :: 0 <= i < 8 ==> StencilBitColors[i].Rgba? && StencilBitColors[i].a == 0.5
  {
  }

  // ---------------------------------------------------------------------------
  // Configuration and constant-buffer contents
  // ---------------------------------------------------------------------------

  /** Depth settings, the depth colours and the dual-buffer switches. */
  datatype DepthSettings = DepthSettings(
    maxDistance: real,
    logScaleFactor: real,
    brightness: real,
    skyThreshold: real,
    nearColor: Vec3,
    farColor: Vec3,
    skyColor: Vec3,
    useDualBuffers: bool,
    viewFarsceneOnly: bool)

  datatype StencilSettings = StencilSettings(
    maxRef: Byte,
    combinedMode: CombinedStencilMode,
    overlayAlpha: real,
    debugAlwaysPass: bool)

  /** Virtual-key codes, 0 meaning disabled. */
  datatype Controls = Controls(toggleHotkey: U32, cycleHotkey: U32, showImguiWindow: bool)

  /** Buffer-capture diagnostics; they are read by the capture logic, not by this object. */
  datatype CaptureSettings = CaptureSettings(
    forceFarsceneBuffer: bool,
    stencilBeforeClear: bool,
    depthBeforeClear: bool,
    onClearNumber: int,
    atPresent: bool)

  /** `Debug_visualizer_config`, its fields grouped as the declaration groups them. */
  datatype Config = Config(
    mode: Mode,
    depth: DepthSettings,
    stencil: StencilSettings,
    controls: Controls,
    capture: CaptureSettings)

  /** `Debug_visualizer_config{}`: off, eight stencil values, hotkeys disabled. */
  const DefaultConfig: Config := Config(
    None,
    DepthSettings(500.0, 0.01, 0.85, 0.9999,
      Vec3(1.0, 1.0, 1.0), Vec3(0.0, 0.0, 0.0), Vec3(0.0, 0.0, 0.1), false, false),
    StencilSettings(8, Values, 0.6, false),
    Controls(0, 0, false),
    CaptureSettings(false, true, true, 1, false))

  /** `Debug_depth_cb` */
  datatype DepthConstants = DepthConstants(
    nearLinearize: DepthLinearize.Params,
    maxDepthDistance: real,
    visualizationMode: nat,
    logScaleFactor: real,
    brightness: real,
    skyThreshold: real,
    useDualBuffers: nat,
    nearColor: Vec3,
    farColor: Vec3,
    skyColor: Vec3,
    farLinearize: DepthLinearize.Params)

  const ZeroDepthConstants: DepthConstants := DepthConstants(
    DepthLinearize.Params(0.0, 0.0), 0.0, 0, 0.0, 0.0, 0.0, 0,
    Vec3(0.0, 0.0, 0.0), Vec3(0.0, 0.0, 0.0), Vec3(0.0, 0.0, 0.0),
    DepthLinearize.Params(0.0, 0.0))

  /** Shader mapping: 0 = linear, 1 = logarithmic, 2 = raw. */
  function VisualizationCode(m: Mode): nat {
    match m
    case DepthLinear => 0
    case Combined => 0
    case DepthLog => 1
    case DepthRaw => 2
    case _ => 0
  }

  /** 0 = near scene only, 1 = both, 2 = far scene only. */
  function DualBufferCode(c: Config): nat {
    if c.depth.viewFarsceneOnly then 2 else if c.depth.useDualBuffers then 1 else 0
  }

  /** `update_depth_constants`: what the depth pass uploads. */
  function DepthConstantsFor(c: Config, nearProj: Mat4, farProj: Mat4): (cb: DepthConstants)
    ensures cb.nearLinearize.mul * cb.nearLinearize.add >= 0.0
    ensures cb.farLinearize.mul * cb.farLinearize.add >= 0.0
    ensures cb.nearLinearize.mul == -nearProj[3][2] && cb.farLinearize.mul == -farProj[3][2]
    ensures cb.visualizationMode == 1 <==> c.mode == DepthLog
    ensures cb.visualizationMode == 2 <==> c.mode == DepthRaw
    ensures cb.visualizationMode <= 2
    ensures cb.useDualBuffers == 2 <==> c.depth.viewFarsceneOnly
    ensures cb.useDualBuffers == 1 <==> !c.depth.viewFarsceneOnly && c.depth.useDualBuffers
    ensures cb.maxDepthDistance == c.depth.maxDistance && cb.brightness == c.depth.brightness
  {
    DepthConstants(
      DepthLinearize.Linearize(nearProj),
      c.depth.maxDistance,
      VisualizationCode(c.mode),
      c.depth.logScaleFactor,
      c.depth.brightness,
      c.depth.skyThreshold,
      DualBufferCode(c),
      c.depth.nearColor,
      c.depth.farColor,
      c.depth.skyColor,
      DepthLinearize.Linearize(farProj))
  }

  // ---------------------------------------------------------------------------
  // Input: the mode automaton and the key edge detector
  // ---------------------------------------------------------------------------

  /**
   * `key_just_pressed(vk)` as a function of the recorded key states and the
   * key's current state: (rising edge, new key states).
   */
  function KeyStep(keys: seq<bool>, vk: nat, down: bool): (r: (bool, seq<bool>))
    requires |keys| == 256
    ensures |r.1| == 256
    ensures r.0 <==> vk < 256 && down && !keys[vk]
    ensures r.1 == if vk < 256 then keys[vk := down] else keys
  {
    if vk >= 256 then (false, keys)
    else (down && !keys[vk], keys[vk := down])
  }

  /** Toggle: (new mode, new last-active mode). */
  function Toggle(mode: Mode, lastActive: Mode): (r: (Mode, Mode))
    ensures r.0 != None <==> mode == None
  {
    if mode == None then
      (if lastActive == None then DepthLinear else lastActive, lastActive)
    else
      (None, mode)
  }

  /** `cycle_mode` */
  function Cycle(mode: Mode): (m: Mode)
    ensures Ordinal(m) == if Ordinal(mode) + 1 == ModeCount then 0 else Ordinal(mode) + 1
  {
    var next := Ordinal(mode) + 1;
    FromOrdinal(if next >= ModeCount then 0 else next)
  }

  datatype InputState = InputState(mode: Mode, lastActive: Mode, keys: seq<bool>)

  /**
   * `update_input`: the toggle hotkey is polled and applied first, then the
   * cycle hotkey; a hotkey of 0 is never polled.
   */
  /** The toggle half of `update_input`. */
  function ToggleHotkeyStep(s: InputState, toggleKey: U32, held: set<nat>): (r: InputState)
    requires |s.keys| == 256
    ensures |r.keys| == 256
  {
    if toggleKey == 0 then s
    else
      var step := KeyStep(s.keys, toggleKey, (toggleKey in held));
      if step.0 then
        var t := Toggle(s.mode, s.lastActive);
        InputState(t.0, t.1, step.1)
      else
        s.(keys := step.1)
  }

  /** The cycle half of `update_input`. */
  function CycleHotkeyStep(s: InputState, cycleKey: U32, held: set<nat>): (r: InputState)
    requires |s.keys| == 256
    ensures |r.keys| == 256
  {
    if cycleKey == 0 then s
    else
      var step := KeyStep(s.keys, cycleKey, (cycleKey in held));
      if step.0 then InputState(Cycle(s.mode), s.lastActive, step.1)
      else s.(keys := step.1)
  }

  /**
   * `update_input`: the toggle hotkey is polled and applied first, then the
   * cycle hotkey; a hotkey of 0 is never polled.
   */
  function UpdateInputSpec(s: InputState, toggleKey: U32, cycleKey: U32, held: set<nat>): (r: InputState)
    requires |s.keys| == 256
    ensures |r.keys| == 256
  {
    CycleHotkeyStep(ToggleHotkeyStep(s, toggleKey, held), cycleKey, held)
  }

  /** Off then on restores the mode that was showing. */
  lemma ToggleTwiceRestores(mode: Mode, lastActive: Mode)
    requires mode != None
    ensures Toggle(Toggle(mode, lastActive).0, Toggle(mode, lastActive).1) == (mode, mode)
  {
  }

  /** Switching on never lands on `None`; with no remembered mode it shows linear depth. */
  lemma ToggleOnFromNone(lastActive: Mode)
    ensures Toggle(None, lastActive).0 == (if lastActive == None then DepthLinear else lastActive)
    ensures Toggle(None, lastActive).1 == lastActive
  {
  }

  function CycleTimes(mode: Mode, k: nat): Mode
    decreases k
  {
    if k == 0 then mode else Cycle(CycleTimes(mode, k - 1))
  }

  lemma {:induction false} CycleTimesOrdinal(mode: Mode, k: nat)
    ensures Ordinal(CycleTimes(mode, k)) == (Ordinal(mode) + k) % ModeCount
    decreases k
  {
    if k > 0 {
      CycleTimesOrdinal(mode, k - 1);
    }
  }

  /** Eight cycles from any mode return to it. */
  lemma EightCyclesIdentity(mode: Mode)
    ensures CycleTimes(mode, 8) == mode
  {
    CycleTimesOrdinal(mode, 8);
    OrdinalInjective(CycleTimes(mode, 8), mode);
  }

  /** With both hotkeys 0 nothing is polled and nothing changes. */
  lemma DisabledHotkeysFreezeInput(s: InputState, held: set<nat>)
    requires |s.keys| == 256
    ensures UpdateInputSpec(s, 0, 0, held) == s
  {
  }

  /** A key that stays down fires once: the next poll sees it already down. */
  lemma HeldKeyFiresOnce(keys: seq<bool>, vk: nat)
    requires |keys| == 256
    ensures !KeyStep(KeyStep(keys, vk, true).1, vk, true).0
  {
  }

  /**
   * When both hotkeys are the same key, the toggle consumes the edge and the
   * cycle never fires in the same update.
   */
  lemma SharedHotkeyOnlyToggles(s: InputState, key: U32, held: set<nat>)
    requires |s.keys| == 256 && key != 0
    ensures UpdateInputSpec(s, key, key, held) == UpdateInputSpec(s, key, 0, held)
  {
  }

  /** Two distinct hotkeys pressed together: toggle first, then cycle. */
  lemma ToggleAppliesBeforeCycle(s: InputState, toggleKey: U32, cycleKey: U32, held: set<nat>)
    requires |s.keys| == 256 && 0 < toggleKey < 256 && 0 < cycleKey < 256 && toggleKey != cycleKey
    requires (toggleKey in held) && !s.keys[toggleKey] && (cycleKey in held) && !s.keys[cycleKey]
    ensures UpdateInputSpec(s, toggleKey, cycleKey, held).mode == Cycle(Toggle(s.mode, s.lastActive).0)
    ensures UpdateInputSpec(s, toggleKey, cycleKey, held).lastActive == Toggle(s.mode, s.lastActive).1
  {
  }

  // ---------------------------------------------------------------------------
  // Passes as traces
  // ---------------------------------------------------------------------------

  const PostprocessVS := "postprocess main_vs"
  const DepthPS := "debug visualizer depth_ps"
  const StencilPS := "debug visualizer stencil_ps"
  const OpaqueBlend := "opaque"
  const OverlayBlend := "overlay"
  const DepthCB := "depth_cb"
  const StencilCB := "stencil_cb"

  /** The depth-stencil states created once, at construction. */
  datatype FixedStates = FixedStates(disabled: Handle, notEqualZero: Handle, always: Handle, bitmask: seq<Handle>)

  /** The read mask of bitmask state `bit`: `1 << bit`, a single set bit. */
  function BitmaskReadMask(bit: nat): (mask: bv8)
    requires bit < 8
    ensures mask != 0 && mask & (mask - 1) == 0
  {
    (1 as bv8) << bit
  }

  lemma BitmaskReadMasksDistinct(i: nat, j: nat)
    requires i < 8 && j < 8 && i != j
    ensures BitmaskReadMask(i) != BitmaskReadMask(j)
  {
  }

  predicate DepthPassRuns(rtv: Handle, nearSrv: Handle) {
    nearSrv.Live? && rtv.Live?
  }

  /** `render_depth` */
  function DepthPass(fixed: FixedStates, rtv: Handle, nearSrv: Handle, farSrv: Handle): seq<Event> {
    if !DepthPassRuns(rtv, nearSrv) then []
    else [
      WriteConstants(DepthCB),
      SetVertexShader(PostprocessVS),
      SetPixelShader(DepthPS),
      BindSRVs(Pixel, 0, [nearSrv, farSrv]),
      BindConstantBuffer(Pixel, 0, DepthCB),
      SetBlendState(OpaqueBlend),
      SetDepthStencilState(fixed.disabled, 0),
      SetRenderTargets([rtv], Null),
      Draw(3)
    ]
  }

  /** The MSAA guard: standalone stencil modes cannot bind a multisampled DSV. */
  predicate StencilPassRuns(mode: Mode, rtv: Handle, dsv: Handle, sampleCount: nat) {
    dsv.Live? && rtv.Live? && !(sampleCount > 1 && mode != Combined)
  }

  function StencilSubMode(c: Config): CombinedStencilMode {
    if c.mode == Combined then c.stencil.combinedMode
    else if c.mode == StencilNonzero then Nonzero
    else if c.mode == StencilValues then Values
    else Bitmask
  }

  function Faded(c: Color, alpha: real): Color {
    c.(a := c.a * alpha)
  }

  /** `render_stencil_nonzero_pass` */
  function NonzeroPass(c: Config, fixed: FixedStates): seq<Event> {
    var state := if c.stencil.debugAlwaysPass then fixed.always else fixed.notEqualZero;
    var color :=
      if c.stencil.debugAlwaysPass then Rgba(0.0, 1.0, 1.0, 0.5 * c.stencil.overlayAlpha)
      else Rgba(1.0, 0.3, 0.3, 0.6 * c.stencil.overlayAlpha);
    [SetDepthStencilState(state, 0), WriteColor(StencilCB, color), Draw(3)]
  }

  /** The EQUAL state a value pass for `r` binds: the cached one, else a fresh creation. */
  function EqualState(cache: seq<Handle>, create: nat -> Handle, r: nat): Handle
    requires r < |cache|
  {
    if cache[r].Live? then cache[r] else create(r)
  }

  /** Palette colour for values 1..8, a generated hue beyond; alpha scaled by the overlay alpha. */
  function ValueColor(r: nat, alpha: real): Color {
    if r < |StencilValueColors| then Faded(StencilValueColors[r], alpha)
    else Hue(r % 8, 0.7 * alpha)
  }

  function ValuePass(state: Handle, r: nat, alpha: real): seq<Event> {
    [SetDepthStencilState(state, r), WriteColor(StencilCB, ValueColor(r, alpha)), Draw(3)]
  }

  /** `render_stencil_value_passes` for refs 1..n, against the cache as it was before the first. */
  function ValuePasses(cache: seq<Handle>, create: nat -> Handle, n: nat, alpha: real): seq<Event>
    requires n < |cache|
    decreases n
  {
    if n == 0 then []
    else ValuePasses(cache, create, n - 1, alpha) + ValuePass(EqualState(cache, create, n), n, alpha)
  }

  /** The cache after the value passes for refs 1..n. */
  function CacheAfter(cache: seq<Handle>, create: nat -> Handle, n: nat): (r: seq<Handle>)
    requires n < |cache|
    ensures |r| == |cache|
  {
    seq(|cache|, i requires 0 <= i < |cache| => if 1 <= i <= n then EqualState(cache, create, i) else cache[i])
  }

  function BitmaskPass(fixed: FixedStates, bit: nat, alpha: real): seq<Event>
    requires bit < |fixed.bitmask| && bit < |StencilBitColors|
  {
    [SetDepthStencilState(fixed.bitmask[bit], 0), WriteColor(StencilCB, Faded(StencilBitColors[bit], alpha)), Draw(3)]
  }

  /** `render_stencil_bitmask_passes` for bits 0..n-1. */
  function BitmaskPasses(fixed: FixedStates, n: nat, alpha: real): seq<Event>
    requires n <= |fixed.bitmask| && n <= 8
    decreases n
  {
    if n == 0 then [] else BitmaskPasses(fixed, n - 1, alpha) + BitmaskPass(fixed, n - 1, alpha)
  }

  /** `render_stencil` */
  function StencilPass(c: Config, fixed: FixedStates, cache: seq<Handle>, create: nat -> Handle,
                       rtv: Handle, dsv: Handle, sampleCount: nat): seq<Event>
    requires |cache| == 256 && |fixed.bitmask| == 8
  {
    if !StencilPassRuns(c.mode, rtv, dsv, sampleCount) then []
    else
      [SetVertexShader(PostprocessVS), SetPixelShader(StencilPS), BindConstantBuffer(Pixel, 0, StencilCB),
       SetBlendState(OverlayBlend),
       SetRenderTargets([rtv], dsv)]
      + match StencilSubMode(c)
        case Nonzero => NonzeroPass(c, fixed)
        case Values => ValuePasses(cache, create, c.stencil.maxRef, c.stencil.overlayAlpha)
        case Bitmask => BitmaskPasses(fixed, 8, c.stencil.overlayAlpha)
  }

  /** The unbinds issued after every active frame. */
  const Cleanup: seq<Event> := [BindSRVs(Pixel, 0, [Null, Null]), SetRenderTargets([], Null)]

  predicate IsDepthMode(m: Mode) {
    m == DepthLinear || m == DepthLog || m == DepthRaw
  }

  predicate IsStencilMode(m: Mode) {
    m == StencilNonzero || m == StencilValues || m == StencilBits
  }

  /** `render`: the whole frame. */
  function RenderTrace(c: Config, fixed: FixedStates, cache: seq<Handle>, create: nat -> Handle,
                       rtv: Handle, nearSrv: Handle, farSrv: Handle, dsv: Handle, sampleCount: nat): seq<Event>
    requires |cache| == 256 && |fixed.bitmask| == 8
  {
    if c.mode == None then []
    else
      (if IsDepthMode(c.mode) then DepthPass(fixed, rtv, nearSrv, farSrv)
       else if IsStencilMode(c.mode) then StencilPass(c, fixed, cache, create, rtv, dsv, sampleCount)
       else DepthPass(fixed, rtv, nearSrv, farSrv) + StencilPass(c, fixed, cache, create, rtv, dsv, sampleCount))
      + Cleanup
  }

  /** Whether a frame runs value passes (and so may fill the EQUAL cache). */
  predicate ValuePassesRun(c: Config, rtv: Handle, dsv: Handle, sampleCount: nat) {
    c.mode != None && !IsDepthMode(c.mode)
    && StencilPassRuns(c.mode, rtv, dsv, sampleCount) && StencilSubMode(c) == Values
  }

  // ---------------------------------------------------------------------------
  // Facts about the passes
  // ---------------------------------------------------------------------------

  /** The value passes for refs 1..n are three calls per ref. */
  lemma {:induction false} ValuePassesLength(cache: seq<Handle>, create: nat -> Handle, n: nat, alpha: real)
    requires n < |cache|
    ensures |ValuePasses(cache, create, n, alpha)| == 3 * n
    decreases n
  {
    if n > 0 {
      ValuePassesLength(cache, create, n - 1, alpha);
    }
  }

  /** The value passes for refs 1..n draw once per ref. */
  lemma {:induction false} ValuePassesDraws(cache: seq<Handle>, create: nat -> Handle, n: nat, alpha: real)
    requires n < |cache|
    ensures Draws(ValuePasses(cache, create, n, alpha)) == n
    decreases n
  {
    if n > 0 {
      var prefix := ValuePasses(cache, create, n - 1, alpha);
      var pass := ValuePass(EqualState(cache, create, n), n, alpha);
      ValuePassesDraws(cache, create, n - 1, alpha);
      DrawsAppend(prefix, pass);
      DrawsLastOnly(pass);
    }
  }

  /** Event k of the pass for ref r sits at index 3 * (r - 1) + k of the passes for refs 1..n, whatever follows it. */
  lemma {:induction false} ValuePassAt(cache: seq<Handle>, create: nat -> Handle, n: nat, alpha: real, r: nat, k: nat)
    requires 1 <= r <= n < |cache| && k < 3
    ensures 3 * (r - 1) + k < |ValuePasses(cache, create, n, alpha)|
    ensures ValuePasses(cache, create, n, alpha)[3 * (r - 1) + k] == ValuePass(EqualState(cache, create, r), r, alpha)[k]
    decreases n
  {
    ValuePassesLength(cache, create, n - 1, alpha);
    if r < n {
      ValuePassAt(cache, create, n - 1, alpha, r, k);
    }
  }

  /** One draw per ref 1..n, in increasing order, each bound to the EQUAL state for that ref with stencil reference ref. */
  lemma ValuePassesShape(cache: seq<Handle>, create: nat -> Handle, n: nat, alpha: real)
    requires n < |cache|
    ensures |ValuePasses(cache, create, n, alpha)| == 3 * n
    ensures Draws(ValuePasses(cache, create, n, alpha)) == n
    ensures forall r :: 1 <= r <= n ==>
      ValuePasses(cache, create, n, alpha)[3 * (r - 1)] == SetDepthStencilState(EqualState(cache, create, r), r)
      && ValuePasses(cache, create, n, alpha)[3 * (r - 1) + 1] == WriteColor(StencilCB, ValueColor(r, alpha))
      && ValuePasses(cache, create, n, alpha)[3 * (r - 1) + 2] == Draw(3)
  {
    ValuePassesLength(cache, create, n, alpha);
    ValuePassesDraws(cache, create, n, alpha);
    forall r | 1 <= r <= n
      ensures ValuePasses(cache, create, n, alpha)[3 * (r - 1)] == SetDepthStencilState(EqualState(cache, create, r), r)
      ensures ValuePasses(cache, create, n, alpha)[3 * (r - 1) + 1] == WriteColor(StencilCB, ValueColor(r, alpha))
      ensures ValuePasses(cache, create, n, alpha)[3 * (r - 1) + 2] == Draw(3)
    {
      ValuePassAt(cache, create, n, alpha, r, 0);
      ValuePassAt(cache, create, n, alpha, r, 1);
      ValuePassAt(cache, create, n, alpha, r, 2);
    }
  }

  /** Exactly 8 draws, bit i bound to the bitmask state created with read mask 1 << i. */
  lemma {:induction false} BitmaskPassesShape(fixed: FixedStates, n: nat, alpha: real)
    requires n <= |fixed.bitmask| && n <= 8
    ensures |BitmaskPasses(fixed, n, alpha)| == 3 * n
    ensures Draws(BitmaskPasses(fixed, n, alpha)) == n
    ensures forall i :: 0 <= i < n ==>
      BitmaskPasses(fixed, n, alpha)[3 * i] == SetDepthStencilState(fixed.bitmask[i], 0)
      && BitmaskPasses(fixed, n, alpha)[3 * i + 2] == Draw(3)
    decreases n
  {
    if n > 0 {
      var prefix := BitmaskPasses(fixed, n - 1, alpha);
      var pass := BitmaskPass(fixed, n - 1, alpha);
      var whole := BitmaskPasses(fixed, n, alpha);
      assert whole == prefix + pass;
      BitmaskPassesShape(fixed, n - 1, alpha);
      DrawsAppend(prefix, pass);
      DrawsLastOnly(pass);
      forall i | 0 <= i < n
        ensures whole[3 * i] == SetDepthStencilState(fixed.bitmask[i], 0)
        ensures whole[3 * i + 2] == Draw(3)
      {
        if i < n - 1 {
          assert 3 * i + 2 < |prefix|;
          assert whole[3 * i] == prefix[3 * i] && whole[3 * i + 2] == prefix[3 * i + 2];
        } else {
          assert 3 * i == |prefix|;
          assert whole[3 * i] == pass[0] && whole[3 * i + 2] == pass[2];
        }
      }
    }
  }

  lemma DepthPassDraws(fixed: FixedStates, rtv: Handle, nearSrv: Handle, farSrv: Handle)
    ensures Draws(DepthPass(fixed, rtv, nearSrv, farSrv)) == if DepthPassRuns(rtv, nearSrv) then 1 else 0
  {
    if DepthPassRuns(rtv, nearSrv) {
      DrawsLastOnly(DepthPass(fixed, rtv, nearSrv, farSrv));
    }
  }

  /** Draws of the stencil sub-passes: 1 for non-zero, one per ref for values, 8 for bitmask. */
  function SubPassDraws(c: Config): nat {
    match StencilSubMode(c)
    case Nonzero => 1
    case Values => c.stencil.maxRef
    case Bitmask => 8
  }

  lemma StencilPassDraws(c: Config, fixed: FixedStates, cache: seq<Handle>, create: nat -> Handle,
                         rtv: Handle, dsv: Handle, sampleCount: nat)
    requires |cache| == 256 && |fixed.bitmask| == 8
    ensures Draws(StencilPass(c, fixed, cache, create, rtv, dsv, sampleCount))
         == if StencilPassRuns(c.mode, rtv, dsv, sampleCount) then SubPassDraws(c) else 0
  {
    if StencilPassRuns(c.mode, rtv, dsv, sampleCount) {
      var prologue: seq<Event> := [SetVertexShader(PostprocessVS), SetPixelShader(StencilPS), BindConstantBuffer(Pixel, 0, StencilCB),
       SetBlendState(OverlayBlend),
        SetRenderTargets([rtv], dsv)];
      assert Draws(prologue) == 0 by { DrawsZeroIff(prologue); }
      var body :=
        match StencilSubMode(c)
        case Nonzero => NonzeroPass(c, fixed)
        case Values => ValuePasses(cache, create, c.stencil.maxRef, c.stencil.overlayAlpha)
        case Bitmask => BitmaskPasses(fixed, 8, c.stencil.overlayAlpha);
      assert StencilPass(c, fixed, cache, create, rtv, dsv, sampleCount) == prologue + body;
      DrawsAppend(prologue, body);
      match StencilSubMode(c)
      case Nonzero =>
        DrawsLastOnly(NonzeroPass(c, fixed));
      case Values =>
        ValuePassesShape(cache, create, c.stencil.maxRef, c.stencil.overlayAlpha);
      case Bitmask =>
        BitmaskPassesShape(fixed, 8, c.stencil.overlayAlpha);
    }
  }

  /** Mode `None` issues no call at all. */
  lemma NoneIssuesNothing(c: Config, fixed: FixedStates, cache: seq<Handle>, create: nat -> Handle,
                          rtv: Handle, nearSrv: Handle, farSrv: Handle, dsv: Handle, sampleCount: nat)
    requires |cache| == 256 && |fixed.bitmask| == 8 && c.mode == None
    ensures RenderTrace(c, fixed, cache, create, rtv, nearSrv, farSrv, dsv, sampleCount) == []
  {
  }

  /**
   * The draw count of a frame: depth modes draw only the depth pass, stencil
   * modes only the stencil pass, combined both; each pass is skipped when a
   * target it needs is null.
   */
  lemma RenderDraws(c: Config, fixed: FixedStates, cache: seq<Handle>, create: nat -> Handle,
                    rtv: Handle, nearSrv: Handle, farSrv: Handle, dsv: Handle, sampleCount: nat)
    requires |cache| == 256 && |fixed.bitmask| == 8
    ensures Draws(RenderTrace(c, fixed, cache, create, rtv, nearSrv, farSrv, dsv, sampleCount)) ==
      (if (IsDepthMode(c.mode) || c.mode == Combined) && DepthPassRuns(rtv, nearSrv) then 1 else 0)
      + (if (IsStencilMode(c.mode) || c.mode == Combined) && StencilPassRuns(c.mode, rtv, dsv, sampleCount)
         then SubPassDraws(c) else 0)
  {
    var depth := DepthPass(fixed, rtv, nearSrv, farSrv);
    var stencil := StencilPass(c, fixed, cache, create, rtv, dsv, sampleCount);
    DepthPassDraws(fixed, rtv, nearSrv, farSrv);
    StencilPassDraws(c, fixed, cache, create, rtv, dsv, sampleCount);
    assert Draws(Cleanup) == 0 by { DrawsZeroIff(Cleanup); }
    if c.mode != None {
      if IsDepthMode(c.mode) {
        DrawsAppend(depth, Cleanup);
      } else if IsStencilMode(c.mode) {
        DrawsAppend(stencil, Cleanup);
      } else {
        DrawsAppend(depth, stencil);
        DrawsAppend(depth + stencil, Cleanup);
      }
    }
  }

  /** With a multisampled DSV the standalone stencil modes issue zero draws. */
  lemma MsaaSkipsStandaloneStencil(c: Config, fixed: FixedStates, cache: seq<Handle>, create: nat -> Handle,
                                   rtv: Handle, nearSrv: Handle, farSrv: Handle, dsv: Handle, sampleCount: nat)
    requires |cache| == 256 && |fixed.bitmask| == 8
    requires IsStencilMode(c.mode) && sampleCount > 1
    ensures Draws(RenderTrace(c, fixed, cache, create, rtv, nearSrv, farSrv, dsv, sampleCount)) == 0
  {
    RenderDraws(c, fixed, cache, create, rtv, nearSrv, farSrv, dsv, sampleCount);
  }

  /** `combined` is not subject to the MSAA guard: its frame does not depend on the sample count. */
  lemma CombinedIgnoresSampleCount(c: Config, fixed: FixedStates, cache: seq<Handle>, create: nat -> Handle,
                                   rtv: Handle, nearSrv: Handle, farSrv: Handle, dsv: Handle, sampleCount: nat)
    requires |cache| == 256 && |fixed.bitmask| == 8 && c.mode == Combined
    ensures RenderTrace(c, fixed, cache, create, rtv, nearSrv, farSrv, dsv, sampleCount)
         == RenderTrace(c, fixed, cache, create, rtv, nearSrv, farSrv, dsv, 1)
    ensures RenderTrace(c, fixed, cache, create, rtv, nearSrv, farSrv, dsv, sampleCount)
         == DepthPass(fixed, rtv, nearSrv, farSrv) + StencilPass(c, fixed, cache, create, rtv, dsv, sampleCount) + Cleanup
  {
  }

  // ---------------------------------------------------------------------------
  // The source's uint8 value-pass counter
  // ---------------------------------------------------------------------------

  /** `++ref` on the source's `std::uint8_t` counter. */
  function AsWrittenNextRef(r: Byte): Byte {
    (r + 1) % 256
  }

  /** The counter after k iterations of the as-written loop, starting at 1. */
  function AsWrittenRefAfter(k: nat): Byte
    decreases k
  {
    if k == 0 then 1 else AsWrittenNextRef(AsWrittenRefAfter(k - 1))
  }

  /** Below the wrap the as-written counter counts 1, 2, 3, ... */
  lemma {:induction false} AsWrittenCountsUp(k: nat)
    requires k < 255
    ensures AsWrittenRefAfter(k) == k + 1
    decreases k
  {
    if k > 0 {
      AsWrittenCountsUp(k - 1);
    }
  }

  /** After the pass for ref 255 the counter wraps to 0, then 1 again. */
  lemma AsWrittenWraps()
    ensures AsWrittenRefAfter(254) == 255
    ensures AsWrittenRefAfter(255) == 0
    ensures AsWrittenRefAfter(256) == 1
  {
    AsWrittenCountsUp(254);
  }

  /**
   * With `stencil_max_ref = 255` the counter repeats with period 256 and the
   * guard `ref <= max_ref` holds at every step: the as-written loop never
   * exits, and keeps issuing passes, including ones for ref 0.
   */
  lemma {:induction false} AsWrittenValueLoopNeverExits(k: nat)
    ensures AsWrittenRefAfter(k + 256) == AsWrittenRefAfter(k)
    ensures AsWrittenRefAfter(k) <= 255
    decreases k
  {
    if k == 0 {
      AsWrittenWraps();
    } else {
      AsWrittenValueLoopNeverExits(k - 1);
    }
  }

  // ---------------------------------------------------------------------------
  // The visualizer object
  // ---------------------------------------------------------------------------

  /** `set_buffer_source_info` fields, shown by the settings panel. */
  datatype BufferSourceInfo = BufferSourceInfo(
    usingCapturedDepth: bool,
    capturedDepthAvailable: bool,
    usingCapturedStencil: bool,
    capturedStencilAvailable: bool,
    depthClearCount: int,
    stencilClearCount: int,
    captureFromFarscene: bool,
    frameSwapped: bool)

  const ZeroMat4: Mat4 := [[0.0, 0.0, 0.0, 0.0], [0.0, 0.0, 0.0, 0.0], [0.0, 0.0, 0.0, 0.0], [0.0, 0.0, 0.0, 0.0]]

  class Visualizer {
    var config: Config
    var lastActiveMode: Mode
    const fixed: FixedStates
    /** `_key_states`: was each virtual key down at its last poll */
    const keyStates: array<bool>
    /** `_ds_stencil_equal`: lazily created EQUAL states, one per stencil reference */
    const equalCache: array<Handle>
    /** How many times an EQUAL state was successfully created for each ref. */
    ghost var equalCreated: multiset<nat>
    var depthConstants: DepthConstants
    var lastDsvSampleCount: nat
    var sourceInfo: BufferSourceInfo
    var nearProjInfo: Mat4
    var farProjInfo: Mat4

    ghost predicate Valid()
      reads this`equalCreated, equalCache
    {
      keyStates.Length == 256 && equalCache.Length == 256 && |fixed.bitmask| == 8
      && (forall r :: 0 <= r < 256 ==> equalCreated[r] == (if equalCache[r].Live? then 1 else 0))
      && (forall r :: r in equalCreated ==> r < 256)
    }

    /**
     * The constructor: defaults, then the user's hotkeys, depth range,
     * overlay alpha and max ref; bitmask state i is created with read mask
     * `1 << i`, the EQUAL states are left for later.
     */
    constructor (toggleKey: U32, cycleKey: U32, maxDepth: real, stencilAlpha: real, maxRef: Byte,
                 disabled: Handle, notEqualZero: Handle, always: Handle, createBitmask: bv8 -> Handle)
      ensures Valid() && fresh(keyStates) && fresh(equalCache)
      ensures config == DefaultConfig.(
        controls := DefaultConfig.controls.(toggleHotkey := toggleKey, cycleHotkey := cycleKey),
        depth := DefaultConfig.depth.(maxDistance := maxDepth),
        stencil := DefaultConfig.stencil.(overlayAlpha := stencilAlpha, maxRef := maxRef))
      ensures config.mode == None && lastActiveMode == DepthLinear
      ensures fixed.disabled == disabled && fixed.notEqualZero == notEqualZero && fixed.always == always
      ensures forall i :: 0 <= i < 8 ==> fixed.bitmask[i] == createBitmask(BitmaskReadMask(i))
      ensures forall k :: 0 <= k < 256 ==> !keyStates[k]
      ensures forall r :: 0 <= r < 256 ==> equalCache[r] == Null
      ensures equalCreated == multiset{}
      ensures lastDsvSampleCount == 1 && depthConstants == ZeroDepthConstants
      ensures sourceInfo == BufferSourceInfo(false, false, false, false, 0, 0, false, false)
      ensures nearProjInfo == ZeroMat4 && farProjInfo == ZeroMat4
    {
      config := DefaultConfig.(
        controls := DefaultConfig.controls.(toggleHotkey := toggleKey, cycleHotkey := cycleKey),
        depth := DefaultConfig.depth.(maxDistance := maxDepth),
        stencil := DefaultConfig.stencil.(overlayAlpha := stencilAlpha, maxRef := maxRef));
      lastActiveMode := DepthLinear;
      fixed := FixedStates(disabled, notEqualZero, always,
        seq(8, i requires 0 <= i < 8 => createBitmask(BitmaskReadMask(i))));
      keyStates := new bool[256](_ => false);
      equalCache := new Handle[256](_ => Null);
      equalCreated := multiset{};
      depthConstants := ZeroDepthConstants;
      lastDsvSampleCount := 1;
      sourceInfo := BufferSourceInfo(false, false, false, false, 0, 0, false, false);
      nearProjInfo := ZeroMat4;
      farProjInfo := ZeroMat4;
    }

    /** `is_active` */
    function IsActive(): (active: bool)
      reads this
      ensures active <==> config.mode != None
    {
      config.mode != None
    }

    /** `key_just_pressed(vk)`, with `held` the keys currently down. */
    method KeyJustPressed(vk: U32, held: set<nat>) returns (pressed: bool)
      requires keyStates.Length == 256
      modifies keyStates
      ensures pressed == KeyStep(old(keyStates[..]), vk, (vk in held)).0
      ensures keyStates[..] == KeyStep(old(keyStates[..]), vk, (vk in held)).1
    {
      if vk >= 256 {
        return false;
      }
      var down := (vk in held);
      var wasDown := keyStates[vk];
      keyStates[vk] := down;
      pressed := down && !wasDown;
    }

    /** `cycle_mode` */
    method CycleMode()
      modifies this`config
      ensures config == old(config).(mode := Cycle(old(config.mode)))
    {
      var next := Ordinal(config.mode) + 1;
      if next >= ModeCount {
        next := 0;
      }
      config := config.(mode := FromOrdinal(next));
    }

    /** `update_input` */
    method UpdateInput(held: set<nat>)
      requires keyStates.Length == 256
      modifies this`config, this`lastActiveMode, keyStates
      ensures InputState(config.mode, lastActiveMode, keyStates[..])
           == UpdateInputSpec(InputState(old(config.mode), old(lastActiveMode), old(keyStates[..])),
                              config.controls.toggleHotkey, config.controls.cycleHotkey, held)
      ensures config == old(config).(mode := config.mode)
    {
      ghost var s0 := InputState(old(config.mode), old(lastActiveMode), old(keyStates[..]));
      var settings := config;
      var toggleKey := settings.controls.toggleHotkey;
      var cycleKey := settings.controls.cycleHotkey;
      var mode := settings.mode;
      var last := lastActiveMode;
      if toggleKey != 0 {
        var pressed := KeyJustPressed(toggleKey, held);
        if pressed {
          if mode == None {
            mode := if last == None then DepthLinear else last;
          } else {
            last := mode;
            mode := None;
          }
        }
      }
      assert InputState(mode, last, keyStates[..]) == ToggleHotkeyStep(s0, toggleKey, held);
      ghost var s1 := InputState(mode, last, keyStates[..]);
      if cycleKey != 0 {
        var pressed := KeyJustPressed(cycleKey, held);
        if pressed {
          mode := Cycle(mode);
        }
      }
      assert InputState(mode, last, keyStates[..]) == CycleHotkeyStep(s1, cycleKey, held);
      assert UpdateInputSpec(s0, toggleKey, cycleKey, held) == InputState(mode, last, keyStates[..]);
      config := settings.(mode := mode);
      lastActiveMode := last;
    }

    /**
     * `get_stencil_equal_state(ref)`: a state is created only when slot ref
     * is empty; a failed creation leaves it empty, to be retried next call.
     */
    method GetStencilEqualState(ref: Byte, created: Handle) returns (state: Handle)
      requires Valid()
      modifies equalCache, this`equalCreated
      ensures Valid()
      ensures state == EqualState(old(equalCache[..]), _ => created, ref)
      ensures equalCache[..] == old(equalCache[..])[ref := state]
      ensures equalCreated == if old(equalCache[ref]).Null? && created.Live?
                              then old(equalCreated) + multiset{ref} else old(equalCreated)
      ensures equalCreated[ref] <= 1
    {
      if equalCache[ref].Null? {
        equalCache[ref] := created;
        if created.Live? {
          equalCreated := equalCreated + multiset{ref};
        }
      }
      state := equalCache[ref];
    }

    /** `render_depth`, including `update_depth_constants` when the pass runs. */
    method RenderDepth(rtv: Handle, nearSrv: Handle, farSrv: Handle, nearProj: Mat4, farProj: Mat4)
      returns (events: seq<Event>)
      modifies this`depthConstants
      ensures events == DepthPass(fixed, rtv, nearSrv, farSrv)
      ensures depthConstants == if DepthPassRuns(rtv, nearSrv) then DepthConstantsFor(config, nearProj, farProj)
                                else old(depthConstants)
    {
      if nearSrv.Null? || rtv.Null? {
        return [];
      }
      depthConstants := DepthConstantsFor(config, nearProj, farProj);
      events := [
        WriteConstants(DepthCB),
        SetVertexShader(PostprocessVS),
        SetPixelShader(DepthPS),
        BindSRVs(Pixel, 0, [nearSrv, farSrv]),
        BindConstantBuffer(Pixel, 0, DepthCB),
        SetBlendState(OpaqueBlend),
        SetDepthStencilState(fixed.disabled, 0),
        SetRenderTargets([rtv], Null),
        Draw(3)
      ];
    }

    /** `render_stencil_nonzero_pass` */
    method RenderStencilNonzeroPass() returns (events: seq<Event>)
      ensures events == NonzeroPass(config, fixed)
      ensures Draws(events) == 1
    {
      var state := if config.stencil.debugAlwaysPass then fixed.always else fixed.notEqualZero;
      var color :=
        if config.stencil.debugAlwaysPass then Rgba(0.0, 1.0, 1.0, 0.5 * config.stencil.overlayAlpha)
        else Rgba(1.0, 0.3, 0.3, 0.6 * config.stencil.overlayAlpha);
      events := [SetDepthStencilState(state, 0), WriteColor(StencilCB, color), Draw(3)];
      DrawsLastOnly(events);
    }

    /**
     * `render_stencil_value_passes`, with an unbounded counter: one pass per
     * ref 1..stencil_max_ref. `create(ref)` is the device's answer when the
     * pass for ref has to create its state.
     */
    method RenderStencilValuePasses(create: nat -> Handle) returns (events: seq<Event>)
      requires Valid()
      modifies equalCache, this`equalCreated
      ensures Valid()
      ensures events == ValuePasses(old(equalCache[..]), create, config.stencil.maxRef, config.stencil.overlayAlpha)
      ensures equalCache[..] == CacheAfter(old(equalCache[..]), create, config.stencil.maxRef)
    {
      var maxRef: nat := config.stencil.maxRef;
      var alpha := config.stencil.overlayAlpha;
      ghost var cache0 := equalCache[..];
      var ref: nat := 1;
      events := [];
      while ref <= maxRef
        invariant 1 <= ref <= maxRef + 1
        invariant Valid()
        invariant events == ValuePasses(cache0, create, ref - 1, alpha)
        invariant equalCache[..] == CacheAfter(cache0, create, ref - 1)
      {
        assert equalCache[ref] == cache0[ref];
        var state := GetStencilEqualState(ref, create(ref));
        assert state == EqualState(cache0, create, ref);
        events := events + ValuePass(state, ref, alpha);
        ref := ref + 1;
      }
    }

    /** `render_stencil_bitmask_passes` */
    method RenderStencilBitmaskPasses() returns (events: seq<Event>)
      requires Valid()
      ensures events == BitmaskPasses(fixed, 8, config.stencil.overlayAlpha)
    {
      var alpha := config.stencil.overlayAlpha;
      events := [];
      for bit := 0 to 8
        invariant events == BitmaskPasses(fixed, bit, alpha)
      {
        events := events + [SetDepthStencilState(fixed.bitmask[bit], 0),
                            WriteColor(StencilCB, Faded(StencilBitColors[bit], alpha)), Draw(3)];
      }
    }

    /** `render_stencil` */
    method RenderStencil(rtv: Handle, dsv: Handle, sampleCount: nat, create: nat -> Handle)
      returns (events: seq<Event>)
      requires Valid()
      modifies equalCache, this`equalCreated
      ensures Valid()
      ensures events == StencilPass(config, fixed, old(equalCache[..]), create, rtv, dsv, sampleCount)
      ensures equalCache[..] ==
        if StencilPassRuns(config.mode, rtv, dsv, sampleCount) && StencilSubMode(config) == Values
        then CacheAfter(old(equalCache[..]), create, config.stencil.maxRef)
        else old(equalCache[..])
    {
      if dsv.Null? || rtv.Null? {
        return [];
      }
      if sampleCount > 1 && config.mode != Combined {
        return [];
      }
      events := [SetVertexShader(PostprocessVS), SetPixelShader(StencilPS), BindConstantBuffer(Pixel, 0, StencilCB),
       SetBlendState(OverlayBlend),
                 SetRenderTargets([rtv], dsv)];
      var subMode;
      if config.mode == Combined {
        subMode := config.stencil.combinedMode;
      } else if config.mode == StencilNonzero {
        subMode := Nonzero;
      } else if config.mode == StencilValues {
        subMode := Values;
      } else {
        subMode := Bitmask;
      }
      var passes;
      match subMode {
        case Nonzero => passes := RenderStencilNonzeroPass();
        case Values => passes := RenderStencilValuePasses(create);
        case Bitmask => passes := RenderStencilBitmaskPasses();
      }
      events := events + passes;
    }

    /** The combined mode: the depth pass, then the stencil pass over it. */
    method RenderCombined(rtv: Handle, nearSrv: Handle, farSrv: Handle, dsv: Handle, sampleCount: nat,
                          nearProj: Mat4, farProj: Mat4, create: nat -> Handle)
      returns (events: seq<Event>)
      requires Valid()
      modifies this`depthConstants, equalCache, this`equalCreated
      ensures Valid()
      ensures events == DepthPass(fixed, rtv, nearSrv, farSrv)
                        + StencilPass(config, fixed, old(equalCache[..]), create, rtv, dsv, sampleCount)
      ensures equalCache[..] ==
        if StencilPassRuns(config.mode, rtv, dsv, sampleCount) && StencilSubMode(config) == Values
        then CacheAfter(old(equalCache[..]), create, config.stencil.maxRef)
        else old(equalCache[..])
      ensures depthConstants == if DepthPassRuns(rtv, nearSrv) then DepthConstantsFor(config, nearProj, farProj)
                                else old(depthConstants)
    {
      var depth := RenderDepth(rtv, nearSrv, farSrv, nearProj, farProj);
      var stencil := RenderStencil(rtv, dsv, sampleCount, create);
      events := depth + stencil;
    }

    /** The passes of a frame in a mode other than `None`: depth, stencil or both. */
    method RenderPasses(rtv: Handle, nearSrv: Handle, farSrv: Handle, dsv: Handle, sampleCount: nat,
                        nearProj: Mat4, farProj: Mat4, create: nat -> Handle)
      returns (events: seq<Event>)
      requires Valid() && config.mode != None
      modifies this`depthConstants, equalCache, this`equalCreated
      ensures Valid()
      ensures events ==
        if IsDepthMode(config.mode) then DepthPass(fixed, rtv, nearSrv, farSrv)
        else if IsStencilMode(config.mode) then StencilPass(config, fixed, old(equalCache[..]), create, rtv, dsv, sampleCount)
        else DepthPass(fixed, rtv, nearSrv, farSrv) + StencilPass(config, fixed, old(equalCache[..]), create, rtv, dsv, sampleCount)
      ensures equalCache[..] ==
        if ValuePassesRun(config, rtv, dsv, sampleCount)
        then CacheAfter(old(equalCache[..]), create, config.stencil.maxRef)
        else old(equalCache[..])
      ensures depthConstants ==
        if (IsDepthMode(config.mode) || config.mode == Combined) && DepthPassRuns(rtv, nearSrv)
        then DepthConstantsFor(config, nearProj, farProj)
        else old(depthConstants)
    {
      if IsDepthMode(config.mode) {
        events := RenderDepth(rtv, nearSrv, farSrv, nearProj, farProj);
      } else if IsStencilMode(config.mode) {
        events := RenderStencil(rtv, dsv, sampleCount, create);
      } else {
        events := RenderCombined(rtv, nearSrv, farSrv, dsv, sampleCount, nearProj, farProj, create);
      }
    }

    /** `render`: one frame of the visualizer. */
    method Render(rtv: Handle, nearSrv: Handle, farSrv: Handle, dsv: Handle, sampleCount: nat,
                  nearProj: Mat4, farProj: Mat4, create: nat -> Handle)
      returns (events: seq<Event>)
      requires Valid()
      modifies this`depthConstants, this`lastDsvSampleCount, equalCache, this`equalCreated
      ensures Valid()
      ensures lastDsvSampleCount == sampleCount
      ensures events == RenderTrace(config, fixed, old(equalCache[..]), create, rtv, nearSrv, farSrv, dsv, sampleCount)
      ensures equalCache[..] ==
        if ValuePassesRun(config, rtv, dsv, sampleCount)
        then CacheAfter(old(equalCache[..]), create, config.stencil.maxRef)
        else old(equalCache[..])
      ensures depthConstants ==
        if (IsDepthMode(config.mode) || config.mode == Combined) && DepthPassRuns(rtv, nearSrv)
        then DepthConstantsFor(config, nearProj, farProj)
        else old(depthConstants)
    {
      lastDsvSampleCount := sampleCount;
      if config.mode == None {
        return [];
      }
      events := RenderPasses(rtv, nearSrv, farSrv, dsv, sampleCount, nearProj, farProj, create);
      events := events + [BindSRVs(Pixel, 0, [Null, Null]), SetRenderTargets([], Null)];
    }

    /** `set_buffer_source_info`: assigns exactly the eight diagnostic fields. */
    method SetBufferSourceInfo(usingCapturedDepth: bool, depthCaptureAvailable: bool,
                               usingCapturedStencil: bool, stencilCaptureAvailable: bool,
                               depthClearCount: int, stencilClearCount: int,
                               captureFromFarscene: bool, frameSwapped: bool)
      modifies this`sourceInfo
      ensures sourceInfo == BufferSourceInfo(usingCapturedDepth, depthCaptureAvailable,
        usingCapturedStencil, stencilCaptureAvailable, depthClearCount, stencilClearCount,
        captureFromFarscene, frameSwapped)
    {
      sourceInfo := BufferSourceInfo(usingCapturedDepth, depthCaptureAvailable,
        usingCapturedStencil, stencilCaptureAvailable, depthClearCount, stencilClearCount,
        captureFromFarscene, frameSwapped);
    }

    /** `set_projection_info`: assigns exactly the two diagnostic matrices. */
    method SetProjectionInfo(nearProj: Mat4, farProj: Mat4)
      modifies this`nearProjInfo, this`farProjInfo
      ensures nearProjInfo == nearProj && farProjInfo == farProj
    {
      nearProjInfo := nearProj;
      farProjInfo := farProj;
    }
  }

  /** Toggling flips whether the visualizer is active. */
  lemma ToggleFlipsActivity(mode: Mode, lastActive: Mode)
    ensures (Toggle(mode, lastActive).0 != None) == (mode == None)
  {
  }
}
