/**
 * The device-context vocabulary shared by every effect.
 *
 * Nothing here renders: each call an effect makes on the Direct3D 11 device
 * context is recorded as an `Event`, in issue order, so that the order of
 * binds and the number of draws become statements about a sequence.
 * Direct3D objects (views, states, buffers) are opaque handles that may be
 * null; shaders, blend states and samplers that an effect owns are named by
 * their role.
 */
module Gpu {

  /** A possibly-null Direct3D object reference. */
  datatype Handle = Null | Live(id: nat)

  /** A shader-resource database lookup: null when the name is absent. */
  function Lookup(textures: map<string, Handle>, name: string): Handle {
    if name in textures then textures[name] else Null
  }

  /** The pipeline stage a shader-resource bind targets. */
  datatype Stage = Vertex | Pixel

  datatype Vec2 = Vec2(x: real, y: real)
  datatype Vec3 = Vec3(x: real, y: real, z: real)
  datatype Vec4 = Vec4(x: real, y: real, z: real, w: real)

  /**
   * A colour written into a constant buffer. `Hue` stands for a colour
   * generated from hue step `step` (of 8) whose channels are computed with
   * sines and are not modelled; only its alpha is.
   */
  datatype Color = Rgba(r: real, g: real, b: real, a: real) | Hue(step: nat, a: real)

  /** A column-major 4x4 matrix, indexed `m[column][row]` as glm does. */
  type Mat4 = m: seq<seq<real>> | |m| == 4 && forall c :: 0 <= c < |m| ==> |m[c]| == 4
    witness [[0.0, 0.0, 0.0, 0.0], [0.0, 0.0, 0.0, 0.0], [0.0, 0.0, 0.0, 0.0], [0.0, 0.0, 0.0, 0.0]]

  const Identity: Mat4 := [[1.0, 0.0, 0.0, 0.0], [0.0, 1.0, 0.0, 0.0], [0.0, 0.0, 1.0, 0.0], [0.0, 0.0, 0.0, 1.0]]

  /** `glm::transpose`: rows become columns. */
  function Transpose(m: Mat4): (t: Mat4)
    ensures forall c, r :: 0 <= c < 4 && 0 <= r < 4 ==> t[c][r] == m[r][c]
  {
    seq(4, c requires 0 <= c < 4 => seq(4, r requires 0 <= r < 4 => m[r][c]))
  }

  /** One device-context call. */
  datatype Event =
    | ClearState
    | SetVertexShader(vs: string)
    | SetPixelShader(ps: string)
    /** `XXSetShaderResources(first, |views|, views)` */
    | BindSRVs(stage: Stage, first: nat, views: seq<Handle>)
    /** `OMSetRenderTargets`; an empty `rtvs` is the unbind-everything form. */
    | SetRenderTargets(rtvs: seq<Handle>, dsv: Handle)
    /** `OMSetRenderTargetsAndUnorderedAccessViews` with one colour target slot. */
    | SetRenderTargetsAndUAVs(rtv: Handle, uavs: seq<Handle>)
    | SetBlendState(blend: string)
    /** `OMSetDepthStencilState(state, stencil_ref)` */
    | SetDepthStencilState(state: Handle, stencilRef: nat)
    /** `XXSetConstantBuffers(slot, 1, buffer)` */
    | BindConstantBuffer(stage: Stage, slot: nat, buffer: string)
    /** New contents written into the constant buffer `buffer`. */
    | WriteConstants(buffer: string)
    /** A constant buffer whose only payload is a colour. */
    | WriteColor(buffer: string, color: Color)
    | ClearRenderTarget(rtv: Handle)
    /** A render target of the given size taken from the effect-wide allocator. */
    | AllocateTarget(width: nat, height: nat)
    /** A shader view created over the first `numElements` elements of a structured buffer. */
    | CreateBufferView(numElements: nat)
    | Draw(vertexCount: nat)
    | DrawInstanced(vertexCount: nat, instanceCount: nat)

  predicate IsDraw(e: Event) {
    e.Draw? || e.DrawInstanced?
  }

  /** The number of draw calls in a trace. */
  function Draws(t: seq<Event>): nat {
    if t == [] then 0 else (if IsDraw(t[0]) then 1 else 0) + Draws(t[1..])
  }

  lemma {:induction false} DrawsAppend(a: seq<Event>, b: seq<Event>)
    ensures Draws(a + b) == Draws(a) + Draws(b)
  {
    if a == [] {
      assert a + b == b;
    } else {
      assert (a + b)[1..] == a[1..] + b;
      DrawsAppend(a[1..], b);
    }
  }

  /** A trace without draw calls has no draws; one with a draw has at least one. */
  lemma {:induction false} DrawsZeroIff(t: seq<Event>)
    ensures Draws(t) == 0 <==> forall i :: 0 <= i < |t| ==> !IsDraw(t[i])
  {
    if t != [] {
      DrawsZeroIff(t[1..]);
      assert forall i :: 1 <= i < |t| ==> t[i] == t[1..][i - 1];
    }
  }

  /**
   * The colour targets bound after a trace, from a context with none bound:
   * the last output-merger call decides, and `ClearState` unbinds all.
   */
  function BoundTargets(t: seq<Event>): seq<Handle>
    decreases |t|
  {
    if t == [] then []
    else
      match t[|t| - 1]
      case SetRenderTargets(rtvs, _) => rtvs
      case SetRenderTargetsAndUAVs(rtv, _) => [rtv]
      case ClearState => []
      case _ => BoundTargets(t[..|t| - 1])
  }

  /** Output-merger calls followed only by other calls decide the bound targets. */
  lemma {:induction false} BoundTargetsAfter(t: seq<Event>, e: Event, rest: seq<Event>)
    requires e.SetRenderTargets? || e.SetRenderTargetsAndUAVs?
    requires forall i :: 0 <= i < |rest| ==> !rest[i].SetRenderTargets? && !rest[i].SetRenderTargetsAndUAVs? && !rest[i].ClearState?
    ensures BoundTargets(t + [e] + rest) == if e.SetRenderTargets? then e.rtvs else [e.rtv]
    decreases |rest|
  {
    var u := t + [e] + rest;
    if rest == [] {
      assert u[..|u| - 1] == t;
    } else {
      var front := rest[..|rest| - 1];
      assert u[..|u| - 1] == t + [e] + front;
      BoundTargetsAfter(t, e, front);
    }
  }

  /**
   * The shader resource seen at `slot` of `stage` after a trace, from a
   * context with none bound: the last bind covering the slot decides, and
   * `ClearState` unbinds all.
   */
  function BoundView(t: seq<Event>, stage: Stage, slot: nat): Handle
    decreases |t|
  {
    if t == [] then Null
    else
      match t[|t| - 1]
      case BindSRVs(s, first, views) =>
        if s == stage && first <= slot < first + |views| then views[slot - first]
        else BoundView(t[..|t| - 1], stage, slot)
      case ClearState => Null
      case _ => BoundView(t[..|t| - 1], stage, slot)
  }

  /** A bind followed only by calls that bind no views decides what a slot it covers holds. */
  lemma {:induction false} BoundViewAfter(t: seq<Event>, e: Event, rest: seq<Event>, slot: nat)
    requires e.BindSRVs? && e.first <= slot < e.first + |e.views|
    requires forall i :: 0 <= i < |rest| ==> !rest[i].BindSRVs? && !rest[i].ClearState?
    ensures BoundView(t + [e] + rest, e.stage, slot) == e.views[slot - e.first]
    decreases |rest|
  {
    var u := t + [e] + rest;
    if rest == [] {
      assert u[|u| - 1] == e;
    } else {
      var front := rest[..|rest| - 1];
      assert u[..|u| - 1] == t + [e] + front;
      BoundViewAfter(t, e, front, slot);
    }
  }

  /** Draw-free pieces around one draw give one draw. */
  lemma OneDrawBetween(before: seq<Event>, draw: Event, after: seq<Event>)
    requires forall i :: 0 <= i < |before| ==> !IsDraw(before[i])
    requires forall i :: 0 <= i < |after| ==> !IsDraw(after[i])
    requires IsDraw(draw)
    ensures Draws(before + [draw] + after) == 1
  {
    DrawsZeroIff(before);
    DrawsZeroIff(after);
    assert [draw][1..] == [];
    DrawsAppend(before, [draw]);
    DrawsAppend(before + [draw], after);
  }

  /** Calls around a draw that leave the output merger alone, as one run of calls. */
  lemma KeepsTargets(states: seq<Event>, draw: Event, after: seq<Event>)
    requires draw.Draw? || draw.DrawInstanced?
    requires forall i :: 0 <= i < |states| ==>
               !states[i].SetRenderTargets? && !states[i].SetRenderTargetsAndUAVs? && !states[i].ClearState?
    requires forall i :: 0 <= i < |after| ==>
               !after[i].SetRenderTargets? && !after[i].SetRenderTargetsAndUAVs? && !after[i].ClearState?
    ensures var rest := states + [draw] + after;
            forall i :: 0 <= i < |rest| ==>
              !rest[i].SetRenderTargets? && !rest[i].SetRenderTargetsAndUAVs? && !rest[i].ClearState?
  {
    var rest := states + [draw] + after;
    forall i | 0 <= i < |rest|
      ensures !rest[i].SetRenderTargets? && !rest[i].SetRenderTargetsAndUAVs? && !rest[i].ClearState?
    {
      if i < |states| {
        assert rest[i] == states[i];
      } else if i > |states| {
        assert rest[i] == after[i - |states| - 1];
      }
    }
  }

  /** Regrouping a pass trace around its output-merger bind. */
  lemma SplitAfterBind(setup: seq<Event>, om: Event, states: seq<Event>, draw: Event, after: seq<Event>)
    ensures setup + [om] + states + [draw] + after == setup + [om] + (states + [draw] + after)
  {
  }

  /**
   * The shape every fullscreen pass shares: calls that do not draw, the
   * output-merger bind, state calls, the one draw, then cleanup calls that
   * neither draw nor rebind the targets. Such a trace draws once, into the
   * targets of that bind.
   */
  lemma FullscreenPassShape(setup: seq<Event>, om: Event, states: seq<Event>, draw: Event, after: seq<Event>)
    requires forall i :: 0 <= i < |setup| ==> !IsDraw(setup[i])
    requires om.SetRenderTargets?
    requires forall i :: 0 <= i < |states| ==> !IsDraw(states[i])
    requires forall i :: 0 <= i < |after| ==> !IsDraw(after[i])
    requires IsDraw(draw)
    requires forall i :: 0 <= i < |states| ==>
               !states[i].SetRenderTargets? && !states[i].SetRenderTargetsAndUAVs? && !states[i].ClearState?
    requires forall i :: 0 <= i < |after| ==>
               !after[i].SetRenderTargets? && !after[i].SetRenderTargetsAndUAVs? && !after[i].ClearState?
    ensures Draws(setup + [om] + states + [draw] + after) == 1
    ensures BoundTargets(setup + [om] + states + [draw] + after) == om.rtvs
  {
    var before := setup + [om] + states;
    forall i | 0 <= i < |before|
      ensures !IsDraw(before[i])
    {
      if i < |setup| {
        assert before[i] == setup[i];
      } else if i > |setup| {
        assert before[i] == states[i - |setup| - 1];
      }
    }
    OneDrawBetween(before, draw, after);
    KeepsTargets(states, draw, after);
    BoundTargetsAfter(setup, om, states + [draw] + after);
    SplitAfterBind(setup, om, states, draw, after);
  }

  /** A trace whose only draw is its last call draws once. */
  lemma DrawsLastOnly(t: seq<Event>)
    requires |t| > 0 && IsDraw(t[|t| - 1])
    requires forall i :: 0 <= i < |t| - 1 ==> !IsDraw(t[i])
    ensures Draws(t) == 1
  {
    var prefix := t[..|t| - 1];
    assert t == prefix + [t[|t| - 1]];
    DrawsAppend(prefix, [t[|t| - 1]]);
    DrawsZeroIff(prefix);
    assert [t[|t| - 1]][1..] == [];
  }
}
