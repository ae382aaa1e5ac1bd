/**
 * The SWBF3-style cloud volumes: up to 128 instanced quads scattered in a
 * bounding box from a seeded engine, and the per-frame pass that uploads
 * them and draws them all in one instanced call.
 *
 * The 3D noise texture the constructor generates is procedural numerics and
 * is a handle here; so are the views and states the device creates.
 */
module CloudVolume {
  import opened Gpu
  import opened Sampling
  import DepthLinearize
  import opened ConstantBuffers
  import opened Numeric
  import opened Wrappers

  /** `max_cloud_volumes`: the capacity of the instance buffer. */
  const MaxCloudVolumes: nat := 128

  /** The upper bound of the rotation distribution (2 pi in single precision). */
  const RotationMax: real := 6.283185

  /** `CloudInstance`: one generated cloud. */
  datatype Instance = Instance(position: Vec3, size: Vec3, rotation: real, noiseOffset: real)

  /** A sample of `uniform_real_distribution(lo, hi)` lies in [lo, hi) when lo < hi, and is lo when they are equal. */
  predicate Within(lo: real, hi: real, v: real) {
    (lo <= hi ==> lo <= v <= hi) && (lo < hi ==> v < hi)
  }

  predicate WithinBox(lo: Vec3, hi: Vec3, v: Vec3) {
    Within(lo.x, hi.x, v.x) && Within(lo.y, hi.y, v.y) && Within(lo.z, hi.z, v.z)
  }

  /** The range facts every generated instance satisfies. */
  predicate InstanceOf(inst: Instance, p: CloudVolumes) {
    && WithinBox(p.areaMin, p.areaMax, inst.position)
    && WithinBox(p.cloudSizeMin, p.cloudSizeMax, inst.size)
    && 0.0 <= inst.rotation < RotationMax
    && 0.0 <= inst.noiseOffset < 1.0
  }

  /**
   * One loop iteration of `regenerate_clouds`, from canonical sample k:
   * three position samples, three size samples, the rotation, the noise offset.
   * C++ leaves unspecified the order in which the three arguments of each
   * `glm::vec3(...)` are evaluated; the model assumes left to right (x, y, z).
   */
  function NextInstance(p: CloudVolumes, rng: Stream, k: nat): (inst: Instance)
    ensures InstanceOf(inst, p)
  {
    Instance(
      Vec3(Uniform(p.areaMin.x, p.areaMax.x, rng(k)),
           Uniform(p.areaMin.y, p.areaMax.y, rng(k + 1)),
           Uniform(p.areaMin.z, p.areaMax.z, rng(k + 2))),
      Vec3(Uniform(p.cloudSizeMin.x, p.cloudSizeMax.x, rng(k + 3)),
           Uniform(p.cloudSizeMin.y, p.cloudSizeMax.y, rng(k + 4)),
           Uniform(p.cloudSizeMin.z, p.cloudSizeMax.z, rng(k + 5))),
      Uniform(0.0, RotationMax, rng(k + 6)),
      Uniform(0.0, 1.0, rng(k + 7)))
  }

  /** The first n instances drawn from `rng`: instance i reads samples 8i to 8i+7. */
  function Instances(p: CloudVolumes, rng: Stream, n: nat): (r: seq<Instance>)
    ensures |r| == n
    decreases n
  {
    if n == 0 then [] else Instances(p, rng, n - 1) + [NextInstance(p, rng, 8 * (n - 1))]
  }

  /** The list `regenerate_clouds` builds: min(cloud_count, 128) instances from the engine seeded with `seed`. */
  function InstancesFor(p: CloudVolumes, engine: Engine): seq<Instance> {
    Instances(p, engine(p.seed), Min(p.cloudCount, MaxCloudVolumes))
  }

  lemma {:induction false} InstancesInRange(p: CloudVolumes, rng: Stream, n: nat)
    ensures forall i :: 0 <= i < n ==> InstanceOf(Instances(p, rng, n)[i], p)
  {
    if n > 0 {
      InstancesInRange(p, rng, n - 1);
      assert forall i :: 0 <= i < n - 1 ==> Instances(p, rng, n)[i] == Instances(p, rng, n - 1)[i];
    }
  }

  /** Instance i does not depend on how many instances follow it. */
  lemma {:induction false} InstancesPrefix(p: CloudVolumes, rng: Stream, n: nat, m: nat)
    requires m <= n
    ensures Instances(p, rng, m) == Instances(p, rng, n)[..m]
    decreases n
  {
    if m < n {
      InstancesPrefix(p, rng, n - 1, m);
      assert Instances(p, rng, n)[..n - 1] == Instances(p, rng, n - 1);
    }
  }

  /**
   * Parameters equal in every placement field and the seed generate the
   * same instances, element for element.
   */
  lemma {:induction false} InstancesDeterministic(p: CloudVolumes, q: CloudVolumes, rng: Stream, n: nat)
    requires p.areaMin == q.areaMin && p.areaMax == q.areaMax
    requires p.cloudSizeMin == q.cloudSizeMin && p.cloudSizeMax == q.cloudSizeMax
    ensures Instances(p, rng, n) == Instances(q, rng, n)
  {
    if n > 0 {
      InstancesDeterministic(p, q, rng, n - 1);
    }
  }

  /**
   * `Gpu_constants`: the transposed view and projection, the camera, the time
   * and the depth pair. The transposed product `view_proj_matrix`, the
   * normalised sun direction and the fields copied from the parameters are
   * not modelled.
   */
  datatype Constants = Constants(
    viewMatrix: Mat4,
    projMatrix: Mat4,
    cameraPosition: Vec3,
    time: real,
    depthLinearize: DepthLinearize.Params)


  /** The constants of one frame: the matrices transposed for HLSL and the sign-normalised depth pair. */
  function ConstantsFor(view: Mat4, proj: Mat4, cameraPosition: Vec3, time: real): (c: Constants)
    ensures c.depthLinearize.mul == -proj[3][2]
    ensures c.depthLinearize.mul * c.depthLinearize.add >= 0.0
    ensures c.depthLinearize.add == proj[2][2] || c.depthLinearize.add == -proj[2][2]
    ensures c.cameraPosition == cameraPosition && c.time == time
    ensures forall i, j :: 0 <= i < 4 && 0 <= j < 4 ==> c.projMatrix[i][j] == proj[j][i] && c.viewMatrix[i][j] == view[j][i]
  {
    Constants(Transpose(view), Transpose(proj), cameraPosition, time, DepthLinearize.Linearize(proj))
  }

  /** `Cloud_volume_input`. */
  datatype Input = Input(rtv: Handle, depthSrv: Handle, width: nat, height: nat)

  const VolumeVS: string := "cloud_volume_vs"
  const VolumePS: string := "cloud_volume_ps"
  const VolumeBlend: string := "cloud_volume_blend"
  const VolumeCB: string := "cloud_volume_constants"

  /** The calls of one frame with n instances, `instanceSrv` being the view created over them. */
  function ApplyTrace(input: Input, n: nat, instanceSrv: Handle, noiseTex: Handle, depthState: Handle): seq<Event> {
    [CreateBufferView(n),
     SetVertexShader(VolumeVS), SetPixelShader(VolumePS),
     BindConstantBuffer(Vertex, 0, VolumeCB), BindConstantBuffer(Pixel, 0, VolumeCB),
     BindSRVs(Vertex, 0, [Null, Null, instanceSrv]),
     BindSRVs(Pixel, 0, [input.depthSrv, noiseTex]),
     SetBlendState(VolumeBlend),
     SetDepthStencilState(depthState, 0),
     SetRenderTargets([input.rtv], Null),
     DrawInstanced(4, n),
     BindSRVs(Vertex, 0, [Null, Null, Null]),
     BindSRVs(Pixel, 0, [Null, Null])]
  }

  /**
   * A frame draws once, four vertices per instance for every instance, over
   * a view of exactly that many elements, with the input target bound; the
   * instance and depth views are cleared after the draw.
   */
  lemma ApplyTraceDraws(input: Input, n: nat, instanceSrv: Handle, noiseTex: Handle, depthState: Handle)
    ensures var t := ApplyTrace(input, n, instanceSrv, noiseTex, depthState);
      && Draws(t) == 1
      && t[10] == DrawInstanced(4, n) && t[0] == CreateBufferView(n)
      && BoundTargets(t[..10]) == [input.rtv]
      && t[11..] == [BindSRVs(Vertex, 0, [Null, Null, Null]), BindSRVs(Pixel, 0, [Null, Null])]
  {
    var t := ApplyTrace(input, n, instanceSrv, noiseTex, depthState);
    DrawsAppend(t[..11], t[11..]);
    assert t == t[..11] + t[11..];
    DrawsLastOnly(t[..11]);
    DrawsZeroIff(t[11..]);
    assert t[..10] == t[..9] + [t[9]] + [];
    BoundTargetsAfter(t[..9], t[9], []);
  }

  class Volumes {
    var enabled: bool
    var needsRegeneration: bool
    var params: CloudVolumes
    var view: Mat4
    var proj: Mat4
    var cameraPosition: Vec3
    var time: real
    var instances: seq<Instance>
    /**
     * The dynamic instance buffer, `max_cloud_volumes` slots; a slot is
     * `None` until an upload first writes it, since the buffer is created
     * without initial data.
     */
    const instanceBuffer: array<Option<Instance>>
    /** The contents of the constant buffer on the GPU, `None` until its first successful map. */
    var constants: Option<Constants>
    const engine: Engine
    const noiseTex: Handle
    const depthState: Handle

    predicate Valid()
      reads this
    {
      instanceBuffer.Length == MaxCloudVolumes
    }

    /** `Cloud_volume(device, shaders)`: disabled, due for generation, default parameters, no instances. */
    constructor (engine: Engine, noiseTex: Handle, depthState: Handle)
      ensures Valid() && fresh(instanceBuffer)
      ensures constants == None && forall i :: 0 <= i < instanceBuffer.Length ==> instanceBuffer[i] == None
      ensures !enabled && needsRegeneration && params == DefaultCloudVolumes && instances == []
      ensures view == Identity && proj == Identity && cameraPosition == Vec3(0.0, 0.0, 0.0) && time == 0.0
      ensures this.engine == engine && this.noiseTex == noiseTex && this.depthState == depthState
    {
      enabled := false;
      needsRegeneration := true;
      params := DefaultCloudVolumes;
      view := Identity;
      proj := Identity;
      cameraPosition := Vec3(0.0, 0.0, 0.0);
      time := 0.0;
      instances := [];
      instanceBuffer := new Option<Instance>[MaxCloudVolumes](_ => None);
      constants := None;
      this.engine := engine;
      this.noiseTex := noiseTex;
      this.depthState := depthState;
    }

    /** `enabled()`. */
    function Enabled(): bool
      reads this
    {
      enabled
    }

    /** `enabled(value)`: stores the flag and nothing else. */
    method SetEnabled(value: bool)
      modifies this`enabled
      ensures enabled == value
      ensures Enabled() == value
    {
      enabled := value;
    }

    /**
     * `params()` handed out for writing: the new parameters are stored, but
     * the instances stay as they were until `regenerate_clouds` is called.
     */
    method SetParams(p: CloudVolumes)
      modifies this`params
      ensures params == p
    {
      params := p;
    }

    /** `set_view_projection`: assigns exactly the four frame fields. */
    method SetViewProjection(view: Mat4, proj: Mat4, cameraPosition: Vec3, time: real)
      modifies this`view, this`proj, this`cameraPosition, this`time
      ensures this.view == view && this.proj == proj && this.cameraPosition == cameraPosition && this.time == time
    {
      this.view := view;
      this.proj := proj;
      this.cameraPosition := cameraPosition;
      this.time := time;
    }

    /**
     * `regenerate_clouds`: the list is cleared and refilled with
     * min(cloud_count, 128) instances drawn from the engine reseeded with
     * `seed`, each inside the configured box and size range.
     */
    method RegenerateClouds()
      modifies this`instances
      ensures instances == InstancesFor(params, engine)
      ensures |instances| == Min(params.cloudCount, MaxCloudVolumes)
      ensures forall i :: 0 <= i < |instances| ==> InstanceOf(instances[i], params)
    {
      instances := [];
      if params.cloudCount == 0 {
        return;
      }
      var rng := engine(params.seed);
      var i: nat := 0;
      while i < params.cloudCount && i < MaxCloudVolumes
        invariant i <= Min(params.cloudCount, MaxCloudVolumes)
        invariant instances == Instances(params, rng, i)
      {
        instances := instances + [NextInstance(params, rng, 8 * i)];
        i := i + 1;
      }
      InstancesInRange(params, rng, i);
    }

    /** The instance upload: the first min(n, 128) slots receive the instances field for field. */
    method UploadInstances()
      requires Valid()
      modifies instanceBuffer
      ensures forall i :: 0 <= i < Min(|instances|, MaxCloudVolumes) ==> instanceBuffer[i] == Some(instances[i])
      ensures forall i :: Min(|instances|, MaxCloudVolumes) <= i < MaxCloudVolumes ==> instanceBuffer[i] == old(instanceBuffer[i])
    {
      var i := 0;
      while i < |instances| && i < MaxCloudVolumes
        invariant i <= Min(|instances|, MaxCloudVolumes)
        invariant forall j :: 0 <= j < i ==> instanceBuffer[j] == Some(instances[j])
        invariant forall j :: i <= j < MaxCloudVolumes ==> instanceBuffer[j] == old(instanceBuffer[j])
      {
        var inst := instances[i];
        instanceBuffer[i] := Some(Instance(inst.position, inst.size, inst.rotation, inst.noiseOffset));
        i := i + 1;
      }
    }

    /**
     * `apply`: nothing when disabled; otherwise the instances are generated
     * if due (and the flag cleared), an empty list ends the frame, and
     * otherwise the instances are uploaded (when the buffer maps), the
     * constants written (when theirs maps) and the single instanced draw
     * issued.
     */
    method Apply(input: Input, instancesMapped: bool, constantsMapped: bool, instanceSrv: Handle)
      returns (trace: seq<Event>)
      requires Valid()
      modifies this`needsRegeneration, this`instances, this`constants, instanceBuffer
      ensures !enabled ==> trace == [] && unchanged(this) && unchanged(instanceBuffer)
      ensures enabled ==> !needsRegeneration
      ensures enabled ==> instances == if old(needsRegeneration) then InstancesFor(params, engine) else old(instances)
      ensures enabled && |instances| == 0 ==> trace == [] && constants == old(constants) && unchanged(instanceBuffer)
      ensures enabled && |instances| > 0 ==>
                && trace == ApplyTrace(input, |instances|, instanceSrv, noiseTex, depthState)
                && constants == if constantsMapped then Some(ConstantsFor(view, proj, cameraPosition, time)) else old(constants)
      ensures enabled && |instances| > 0 && instancesMapped ==>
                forall i :: 0 <= i < Min(|instances|, MaxCloudVolumes) ==> instanceBuffer[i] == Some(instances[i])
      ensures !(enabled && |instances| > 0 && instancesMapped) ==> unchanged(instanceBuffer)
    {
      trace := [];
      if !enabled {
        return;
      }
      if needsRegeneration {
        RegenerateClouds();
        needsRegeneration := false;
      }
      if |instances| == 0 {
        return;
      }
      if instancesMapped {
        UploadInstances();
      }
      if constantsMapped {
        constants := Some(ConstantsFor(view, proj, cameraPosition, time));
      }
      trace := ApplyTrace(input, |instances|, instanceSrv, noiseTex, depthState);
    }
  }
}
