/**
 * The BF3-style cloud compositor: a particle list built from the cloud
 * volumes, rendered to a quarter-resolution target and upsampled onto the
 * scene, optionally through the order-independent-transparency (OIT)
 * buffers.
 *
 * The particle builder draws from one engine reseeded with 12345 on every
 * rebuild. The point in the unit ball it derives from three samples uses
 * `acos`, `cbrt`, sines and cosines and is the `sphere` parameter of the
 * effect. Shading constants, samplers, viewports and the rasterizer state
 * are not part of the trace.
 */
module CloudsBf3 {
  import opened Gpu
  import opened Sampling
  import opened Wrappers
  import opened CloudsBf3Params
  import opened Numeric

  /** The capacity of the particle buffer. */
  const Cap: nat := 80000

  /** The builder's fixed seed. */
  const RebuildSeed: int := 12345

  const White: Vec3 := Vec3(1.0, 1.0, 1.0)

  /** `GPU_Particle`. */
  datatype Particle = Particle(
    position: Vec3,
    size: real,
    color: Vec3,
    alpha: real,
    rotation: real,
    noiseOffset: real,
    density: real)

  /** The unit-ball point `r * (sin phi cos theta, sin phi sin theta, cos phi)` for samples (u, v, w). */
  type SpherePoint = (real, real, real) -> Vec3

  function Add(a: Vec3, b: Vec3): Vec3 {
    Vec3(a.x + b.x, a.y + b.y, a.z + b.z)
  }

  /** glm's component-wise product. */
  function Scale(a: Vec3, b: Vec3): Vec3 {
    Vec3(a.x * b.x, a.y * b.y, a.z * b.z)
  }

  function NonNeg(n: int): nat {
    if n < 0 then 0 else n
  }

  // ---------------------------------------------------------------------
  // Rebuild
  // ---------------------------------------------------------------------

  /** What every particle spawned from volume `vol` under `p` satisfies. */
  predicate ParticleOf(q: Particle, vol: Volume, p: Params) {
    (p.particleSizeMin <= p.particleSizeMax ==> p.particleSizeMin <= q.size <= p.particleSizeMax)
    && q.color == White
    && 0.5 <= q.alpha < 1.0
    && 0.0 <= q.rotation <= AngleMax
    && 0.0 <= q.noiseOffset < 1.0
    && (vol.density >= 0.0 ==> vol.density * 0.7 <= q.density <= vol.density * 1.3)
  }

  lemma ScaledFactor(d: real, f: real)
    requires d >= 0.0 && 0.7 <= f <= 1.3
    ensures d * 0.7 <= d * f <= d * 1.3
  {
    NonNegativeProduct(d, f - 0.7);
    NonNegativeProduct(d, 1.3 - f);
  }

  /** A sample of [-1, 1] times a nonnegative radius lies in [-radius, radius]. */
  lemma ScaledOffset(u: real, radius: real)
    requires -1.0 <= u <= 1.0 && radius >= 0.0
    ensures -radius <= u * radius <= radius
  {
    NonNegativeProduct(1.0 - u, radius);
    NonNegativeProduct(u + 1.0, radius);
  }

  /** A particle's offset from its cluster's centre, from three samples of [-1, 1). */
  function ClusterOffset(radius: real, u: Unit, v: Unit, w: Unit): (o: Vec3)
    ensures radius >= 0.0 ==>
      && -radius <= o.x <= radius
      && -radius * 0.5 <= o.y <= radius * 0.5
      && -radius <= o.z <= radius
  {
    var x, y, z := Uniform(-1.0, 1.0, u), Uniform(-1.0, 1.0, v), Uniform(-1.0, 1.0, w);
    if radius >= 0.0 then
      ScaledOffset(x, radius);
      ScaledOffset(y, radius);
      ScaledOffset(z, radius);
      Vec3(x * radius, y * radius * 0.5, z * radius)
    else Vec3(x * radius, y * radius * 0.5, z * radius)
  }

  /** A cluster's centre: the volume's position plus a unit-ball point scaled by the volume's radii. */
  function ClusterCenter(vol: Volume, sphere: SpherePoint, rng: Stream, k: nat): Vec3 {
    Add(vol.position, Scale(sphere(rng(k), rng(k + 1), rng(k + 2)), vol.scale))
  }

  /** One particle around `center`, from the eight samples starting at k. */
  function MakeParticle(p: Params, vol: Volume, center: Vec3, rng: Stream, k: nat): (q: Particle)
    ensures ParticleOf(q, vol, p)
    ensures p.clusterRadius >= 0.0 ==>
      && -p.clusterRadius <= q.position.x - center.x <= p.clusterRadius
      && -p.clusterRadius * 0.5 <= q.position.y - center.y <= p.clusterRadius * 0.5
      && -p.clusterRadius <= q.position.z - center.z <= p.clusterRadius
  {
    var offset := ClusterOffset(p.clusterRadius, rng(k), rng(k + 1), rng(k + 2));
    var factor := Uniform(0.7, 1.3, rng(k + 7));
    assert vol.density >= 0.0 ==> vol.density * 0.7 <= vol.density * factor <= vol.density * 1.3 by {
      if vol.density >= 0.0 {
        ScaledFactor(vol.density, factor);
      }
    }
    Particle(Add(center, offset),
             Uniform(p.particleSizeMin, p.particleSizeMax, rng(k + 3)),
             White,
             Uniform(0.5, 1.0, rng(k + 4)),
             Uniform(0.0, AngleMax, rng(k + 5)),
             rng(k + 6),
             vol.density * factor)
  }

  /**
   * The particle loop of one cluster, with n iterations left, appending to
   * `out` from sample k: it stops early once the buffer is full.
   */
  function ClusterParticles(p: Params, vol: Volume, center: Vec3, rng: Stream, out: seq<Particle>, k: nat, n: nat)
    : (r: (seq<Particle>, nat))
    ensures |out| <= |r.0| && r.0[..|out|] == out
    ensures |out| <= Cap ==> |r.0| == Min(Cap, |out| + n)
    decreases n
  {
    if n == 0 || |out| >= Cap then (out, k)
    else ClusterParticles(p, vol, center, rng, out + [MakeParticle(p, vol, center, rng, k)], k + 8, n - 1)
  }

  /** The cluster loop of one volume, with n clusters left. */
  function VolumeClusters(p: Params, vol: Volume, sphere: SpherePoint, rng: Stream, out: seq<Particle>, k: nat, n: nat)
    : (r: (seq<Particle>, nat))
    ensures |out| <= |r.0| && r.0[..|out|] == out
    decreases n
  {
    if n == 0 || |out| >= Cap then (out, k)
    else
      var c := ClusterParticles(p, vol, ClusterCenter(vol, sphere, rng, k), rng, out, k + 3, NonNeg(vol.particlesPerCluster));
      var r := VolumeClusters(p, vol, sphere, rng, c.0, c.1, n - 1);
      PrefixTransitive(out, c.0, r.0);
      r
  }

  /** The volume loop over the remaining volumes `vols`. */
  function FillVolumes(p: Params, vols: seq<Volume>, sphere: SpherePoint, rng: Stream, out: seq<Particle>, k: nat)
    : (r: (seq<Particle>, nat))
    ensures |out| <= |r.0| && r.0[..|out|] == out
    decreases |vols|
  {
    if vols == [] then (out, k)
    else
      var v := VolumeClusters(p, vols[0], sphere, rng, out, k, NonNeg(vols[0].clusterCount));
      var r := FillVolumes(p, vols[1..], sphere, rng, v.0, v.1);
      PrefixTransitive(out, v.0, r.0);
      r
  }

  /** The particle list `rebuild_particles` builds for `p` from stream `rng`. */
  function Particles(p: Params, sphere: SpherePoint, rng: Stream): seq<Particle> {
    FillVolumes(p, p.volumes, sphere, rng, [], 0).0
  }

  /** The number of particles the volumes ask for: the sum of cluster_count * particles_per_cluster, negatives as 0. */
  function Requested(vols: seq<Volume>): nat {
    if vols == [] then 0
    else NonNeg(vols[0].clusterCount) * NonNeg(vols[0].particlesPerCluster) + Requested(vols[1..])
  }

  lemma {:induction false} VolumeClustersCount(p: Params, vol: Volume, sphere: SpherePoint, rng: Stream,
                                               out: seq<Particle>, k: nat, n: nat)
    requires |out| <= Cap
    ensures |VolumeClusters(p, vol, sphere, rng, out, k, n).0| == Min(Cap, |out| + n * NonNeg(vol.particlesPerCluster))
    decreases n
  {
    var per := NonNeg(vol.particlesPerCluster);
    if n > 0 && |out| < Cap {
      var c := ClusterParticles(p, vol, ClusterCenter(vol, sphere, rng, k), rng, out, k + 3, per);
      assert VolumeClusters(p, vol, sphere, rng, out, k, n) == VolumeClusters(p, vol, sphere, rng, c.0, c.1, n - 1);
      assert |c.0| == Min(Cap, |out| + per);
      VolumeClustersCount(p, vol, sphere, rng, c.0, c.1, n - 1);
      var rest := (n - 1) * per;
      assert rest >= 0;
      assert n * per == per + rest;
    } else if n == 0 {
      assert n * per == 0;
    } else {
      assert n * per >= 0;
    }
  }

  lemma {:induction false} FillVolumesCount(p: Params, vols: seq<Volume>, sphere: SpherePoint, rng: Stream,
                                            out: seq<Particle>, k: nat)
    requires |out| <= Cap
    ensures |FillVolumes(p, vols, sphere, rng, out, k).0| == Min(Cap, |out| + Requested(vols))
    decreases |vols|
  {
    if vols != [] {
      VolumeClustersCount(p, vols[0], sphere, rng, out, k, NonNeg(vols[0].clusterCount));
      var v := VolumeClusters(p, vols[0], sphere, rng, out, k, NonNeg(vols[0].clusterCount));
      FillVolumesCount(p, vols[1..], sphere, rng, v.0, v.1);
    }
  }

  /** A sequence that extends an extension of `a` extends `a`. */
  lemma PrefixTransitive(a: seq<Particle>, b: seq<Particle>, c: seq<Particle>)
    requires |a| <= |b| <= |c| && b[..|a|] == a && c[..|b|] == b
    ensures c[..|a|] == a
  {
    assert c[..|a|] == c[..|b|][..|a|];
  }

  lemma {:induction false} ClusterParticlesRanges(p: Params, vol: Volume, center: Vec3, rng: Stream,
                                                  out: seq<Particle>, k: nat, n: nat)
    ensures forall i :: |out| <= i < |ClusterParticles(p, vol, center, rng, out, k, n).0| ==>
              ParticleOf(ClusterParticles(p, vol, center, rng, out, k, n).0[i], vol, p)
    decreases n
  {
    if n > 0 && |out| < Cap {
      var next := out + [MakeParticle(p, vol, center, rng, k)];
      ClusterParticlesRanges(p, vol, center, rng, next, k + 8, n - 1);
      var r := ClusterParticles(p, vol, center, rng, next, k + 8, n - 1);
      assert ClusterParticles(p, vol, center, rng, out, k, n) == r;
      forall i | |out| <= i < |r.0|
        ensures ParticleOf(r.0[i], vol, p)
      {
        if i == |out| {
          assert r.0[i] == r.0[..|next|][i];
        }
      }
    }
  }

  lemma {:induction false} VolumeClustersRanges(p: Params, vol: Volume, sphere: SpherePoint, rng: Stream,
                                                out: seq<Particle>, k: nat, n: nat)
    ensures forall i :: |out| <= i < |VolumeClusters(p, vol, sphere, rng, out, k, n).0| ==>
              ParticleOf(VolumeClusters(p, vol, sphere, rng, out, k, n).0[i], vol, p)
    decreases n
  {
    if n > 0 && |out| < Cap {
      var center := ClusterCenter(vol, sphere, rng, k);
      var c := ClusterParticles(p, vol, center, rng, out, k + 3, NonNeg(vol.particlesPerCluster));
      ClusterParticlesRanges(p, vol, center, rng, out, k + 3, NonNeg(vol.particlesPerCluster));
      VolumeClustersRanges(p, vol, sphere, rng, c.0, c.1, n - 1);
      var r := VolumeClusters(p, vol, sphere, rng, c.0, c.1, n - 1);
      assert VolumeClusters(p, vol, sphere, rng, out, k, n) == r;
      forall i | |out| <= i < |r.0|
        ensures ParticleOf(r.0[i], vol, p)
      {
        if i < |c.0| {
          assert r.0[i] == r.0[..|c.0|][i];
        }
      }
    }
  }

  lemma {:induction false} FillVolumesRanges(p: Params, vols: seq<Volume>, sphere: SpherePoint, rng: Stream,
                                             out: seq<Particle>, k: nat)
    ensures forall i :: |out| <= i < |FillVolumes(p, vols, sphere, rng, out, k).0| ==>
              exists j :: 0 <= j < |vols| && ParticleOf(FillVolumes(p, vols, sphere, rng, out, k).0[i], vols[j], p)
    decreases |vols|
  {
    if vols != [] {
      var v := VolumeClusters(p, vols[0], sphere, rng, out, k, NonNeg(vols[0].clusterCount));
      VolumeClustersRanges(p, vols[0], sphere, rng, out, k, NonNeg(vols[0].clusterCount));
      FillVolumesRanges(p, vols[1..], sphere, rng, v.0, v.1);
      var r := FillVolumes(p, vols[1..], sphere, rng, v.0, v.1);
      assert FillVolumes(p, vols, sphere, rng, out, k) == r;
      forall i | |out| <= i < |r.0|
        ensures exists j :: 0 <= j < |vols| && ParticleOf(r.0[i], vols[j], p)
      {
        if i < |v.0| {
          assert r.0[i] == r.0[..|v.0|][i];
          assert ParticleOf(r.0[i], vols[0], p);
        } else {
          var j :| 0 <= j < |vols[1..]| && ParticleOf(r.0[i], vols[1..][j], p);
          assert ParticleOf(r.0[i], vols[j + 1], p);
        }
      }
    } else {
      assert FillVolumes(p, vols, sphere, rng, out, k).0 == out;
    }
  }

  /** A rebuild yields min(80000, requested) particles, each within the ranges of some volume. */
  lemma ParticlesCount(p: Params, sphere: SpherePoint, rng: Stream)
    ensures |Particles(p, sphere, rng)| == Min(Cap, Requested(p.volumes))
    ensures forall i :: 0 <= i < |Particles(p, sphere, rng)| ==>
              exists j :: 0 <= j < |p.volumes| && ParticleOf(Particles(p, sphere, rng)[i], p.volumes[j], p)
  {
    FillVolumesCount(p, p.volumes, sphere, rng, [], 0);
    FillVolumesRanges(p, p.volumes, sphere, rng, [], 0);
  }

  /** The particle loop of `rebuild_particles` for one cluster, stopping once the buffer is full. */
  method AppendCluster(p: Params, vol: Volume, center: Vec3, rng: Stream, out: seq<Particle>, k: nat)
    returns (out': seq<Particle>, k': nat)
    ensures (out', k') == ClusterParticles(p, vol, center, rng, out, k, NonNeg(vol.particlesPerCluster))
  {
    out', k' := out, k;
    var q := 0;
    while q < vol.particlesPerCluster && |out'| < Cap
      invariant 0 <= q && (q <= vol.particlesPerCluster || q == 0)
      invariant ClusterParticles(p, vol, center, rng, out', k', NonNeg(vol.particlesPerCluster - q))
                == ClusterParticles(p, vol, center, rng, out, k, NonNeg(vol.particlesPerCluster))
    {
      out' := out' + [MakeParticle(p, vol, center, rng, k')];
      k' := k' + 8;
      q := q + 1;
    }
  }

  /** The cluster loop of `rebuild_particles` for one volume: a centre, then its particles. */
  method AppendVolume(p: Params, vol: Volume, sphere: SpherePoint, rng: Stream, out: seq<Particle>, k: nat)
    returns (out': seq<Particle>, k': nat)
    ensures (out', k') == VolumeClusters(p, vol, sphere, rng, out, k, NonNeg(vol.clusterCount))
  {
    out', k' := out, k;
    var c := 0;
    while c < vol.clusterCount && |out'| < Cap
      invariant 0 <= c && (c <= vol.clusterCount || c == 0)
      invariant VolumeClusters(p, vol, sphere, rng, out', k', NonNeg(vol.clusterCount - c))
                == VolumeClusters(p, vol, sphere, rng, out, k, NonNeg(vol.clusterCount))
    {
      var center := ClusterCenter(vol, sphere, rng, k');
      out', k' := AppendCluster(p, vol, center, rng, out', k' + 3);
      c := c + 1;
    }
  }

  // ---------------------------------------------------------------------
  // Rebuild-on-change
  // ---------------------------------------------------------------------

  /** A volume change that moves or resizes particles. */
  predicate VolumeDiffers(a: Volume, b: Volume) {
    a.clusterCount != b.clusterCount || a.particlesPerCluster != b.particlesPerCluster
    || a.position != b.position || a.scale != b.scale
  }

  predicate LayoutChanged(a: seq<Volume>, b: seq<Volume>) {
    |a| != |b| || exists i :: 0 <= i < |a| && VolumeDiffers(a[i], b[i])
  }

  /** Whether setting `next` over `current` rebuilds the particles. */
  predicate NeedsRebuild(current: Params, next: Params) {
    LayoutChanged(next.volumes, current.volumes)
    || Abs(next.particleSizeMin - current.particleSizeMin) > 1.0
    || Abs(next.particleSizeMax - current.particleSizeMax) > 1.0
    || Abs(next.clusterRadius - current.clusterRadius) > 1.0
  }

  /** Setting the same parameters again never rebuilds. */
  lemma SameParamsNoRebuild(p: Params)
    ensures !NeedsRebuild(p, p)
  {
  }

  /** Changes to density, enablement or small size tweaks do not rebuild. */
  lemma DensityOnlyNoRebuild(p: Params, q: Params)
    requires |q.volumes| == |p.volumes|
    requires forall i :: 0 <= i < |p.volumes| ==> q.volumes[i] == p.volumes[i].(density := q.volumes[i].density)
    requires Abs(q.particleSizeMin - p.particleSizeMin) <= 1.0 && Abs(q.particleSizeMax - p.particleSizeMax) <= 1.0
    requires q.clusterRadius == p.clusterRadius
    ensures !NeedsRebuild(p, q)
  {
    forall i | 0 <= i < |q.volumes|
      ensures !VolumeDiffers(q.volumes[i], p.volumes[i])
    {
      assert q.volumes[i] == p.volumes[i].(density := q.volumes[i].density);
    }
  }

  /** The comparison loop of `set_params`: stops at the first volume that differs. */
  method VolumeLayoutChanged(a: seq<Volume>, b: seq<Volume>) returns (changed: bool)
    ensures changed <==> LayoutChanged(a, b)
  {
    changed := |a| != |b|;
    if !changed {
      var i := 0;
      while i < |a|
        invariant 0 <= i <= |a|
        invariant !changed
        invariant forall j :: 0 <= j < i ==> !VolumeDiffers(a[j], b[j])
      {
        if VolumeDiffers(a[i], b[i]) {
          changed := true;
          break;
        }
        i := i + 1;
      }
    }
  }

  // ---------------------------------------------------------------------
  // Render
  // ---------------------------------------------------------------------

  /** The engine-supplied frame input the control logic reads. */
  datatype Input = Input(width: nat, height: nat, proj: Mat4, firstPersonDepth: Handle)

  /** A render target from the allocator: its target view and its shader view. */
  datatype Target = Target(rtv: Handle, srv: Handle)

  /** `GPU_UpsampleConstants`. */
  datatype UpsampleConstants = UpsampleConstants(
    lowresSize: Vec2,
    fullresSize: Vec2,
    texelSize: Vec2,
    depthThreshold: real,
    upsampleSharpness: real,
    depthParams: Vec2,
    useFirstPersonDepth: real)

  const CloudVS: string := "cloud_vs"
  const CloudPS: string := "cloud_ps"
  const UpsampleVS: string := "cloud_upsample_vs"
  const UpsamplePS: string := "cloud_upsample_ps"
  const UpsampleOitPS: string := "cloud_upsample_oit_ps"
  const PremultipliedBlend: string := "premultiplied_alpha"
  const CloudCB: string := "cloud_constants"
  const UpsampleCB: string := "cloud_upsample_constants"
  const CloudNoiseName: string := "_SP_BUILTIN_cloud_noise"
  const WhiteName: string := "_SP_BUILTIN_white"

  /** One side of the low-resolution target: a quarter, but never 0. */
  function LowresSide(n: nat): (r: nat)
    ensures r >= 1
    ensures n >= 4 ==> r == n / 4 && 4 * r <= n < 4 * r + 4
    ensures n < 4 ==> r == 1
  {
    if n / 4 < 1 then 1 else n / 4
  }

  /** The OIT path is taken only when all three UAVs are bound. */
  predicate UseOit(uavs: seq<Handle>)
    requires |uavs| == 3
  {
    uavs[0] != Null && uavs[1] != Null && uavs[2] != Null
  }

  /** The noise texture chain: the cloud noise, else the white texture. */
  function NoiseFallback(textures: map<string, Handle>): (h: Handle)
    ensures h != Null <==> Lookup(textures, CloudNoiseName) != Null || Lookup(textures, WhiteName) != Null
    ensures Lookup(textures, CloudNoiseName) != Null ==> h == Lookup(textures, CloudNoiseName)
  {
    var noise := Lookup(textures, CloudNoiseName);
    if noise != Null then noise else Lookup(textures, WhiteName)
  }

  function UpsampleConstantsFor(input: Input): (c: UpsampleConstants)
    ensures c.depthThreshold == 0.01 && c.upsampleSharpness == 1.0
    ensures c.useFirstPersonDepth == (if input.firstPersonDepth != Null then 1.0 else 0.0)
    ensures c.lowresSize.x >= 1.0 && c.lowresSize.y >= 1.0
  {
    var w := LowresSide(input.width);
    var h := LowresSide(input.height);
    UpsampleConstants(
      Vec2(w as real, h as real),
      Vec2(input.width as real, input.height as real),
      Vec2(1.0 / w as real, 1.0 / h as real),
      0.01,
      1.0,
      Vec2(input.proj[2][2], input.proj[3][2]),
      if input.firstPersonDepth != Null then 1.0 else 0.0)
  }

  /** Pass 1 up to its draw: the cleared low-resolution target bound with the particle shaders and views. */
  function LowresSetup(input: Input, lowres: Target, passSrvs: seq<Handle>, depthStateDisabled: Handle): seq<Event> {
    [AllocateTarget(LowresSide(input.width), LowresSide(input.height)),
     ClearRenderTarget(lowres.rtv),
     WriteConstants(CloudCB),
     SetVertexShader(CloudVS), SetPixelShader(CloudPS),
     BindSRVs(Vertex, 0, passSrvs), BindSRVs(Pixel, 0, passSrvs),
     BindConstantBuffer(Vertex, 1, CloudCB), BindConstantBuffer(Pixel, 1, CloudCB)]
    + [SetRenderTargets([lowres.rtv], Null)]
    + [SetBlendState(PremultipliedBlend), SetDepthStencilState(depthStateDisabled, 0)]
  }

  /** Pass 1: every particle drawn as a six-vertex instance into the low-resolution target. */
  function LowresPass(input: Input, lowres: Target, passSrvs: seq<Handle>, depthStateDisabled: Handle, count: nat)
    : seq<Event>
  {
    LowresSetup(input, lowres, passSrvs, depthStateDisabled) + [DrawInstanced(6, count)]
  }

  /** Pass 2 up to its view binds: the low-resolution target unbound, the upsample shaders and constants set. */
  function UpsampleSetup(uavs: seq<Handle>): seq<Event>
    requires |uavs| == 3
  {
    [SetRenderTargets([Null], Null)]
    + [SetVertexShader(UpsampleVS),
       SetPixelShader(if UseOit(uavs) then UpsampleOitPS else UpsamplePS),
       WriteConstants(UpsampleCB)]
  }

  /** The output of pass 2: the OIT buffers behind a null target, or the output target. */
  function UpsampleOutput(outputRtv: Handle, uavs: seq<Handle>): Event
    requires |uavs| == 3
  {
    if UseOit(uavs) then SetRenderTargetsAndUAVs(Null, uavs) else SetRenderTargets([outputRtv], Null)
  }

  /** Pass 2: the low-resolution result upsampled by a fullscreen triangle. */
  function UpsamplePass(input: Input, lowres: Target, depthSrv: Handle, outputRtv: Handle, uavs: seq<Handle>)
    : seq<Event>
    requires |uavs| == 3
  {
    UpsampleSetup(uavs)
    + [BindSRVs(Pixel, 0, [lowres.srv, depthSrv, input.firstPersonDepth]), BindConstantBuffer(Pixel, 2, UpsampleCB),
       UpsampleOutput(outputRtv, uavs), Draw(3)]
  }

  /** Five shader-resource slots cleared on both stages, and the UAVs released on the OIT path. */
  function Unbind(uavs: seq<Handle>): seq<Event>
    requires |uavs| == 3
  {
    [BindSRVs(Vertex, 0, [Null, Null, Null, Null, Null]), BindSRVs(Pixel, 0, [Null, Null, Null, Null, Null])]
    + (if UseOit(uavs) then [SetRenderTargetsAndUAVs(Null, [Null, Null, Null])] else [])
  }

  function FrameTrace(input: Input, lowres: Target, passSrvs: seq<Handle>, depthStateDisabled: Handle, count: nat,
                      depthSrv: Handle, outputRtv: Handle, uavs: seq<Handle>): seq<Event>
    requires |uavs| == 3
  {
    LowresPass(input, lowres, passSrvs, depthStateDisabled, count)
    + UpsamplePass(input, lowres, depthSrv, outputRtv, uavs)
    + Unbind(uavs)
  }

  /** A frame draws twice: every particle as an instance, then a fullscreen triangle. */
  lemma FrameDraws(input: Input, lowres: Target, passSrvs: seq<Handle>, depthStateDisabled: Handle,
                   count: nat, depthSrv: Handle, outputRtv: Handle, uavs: seq<Handle>)
    requires |uavs| == 3
    ensures var t := FrameTrace(input, lowres, passSrvs, depthStateDisabled, count, depthSrv, outputRtv, uavs);
      Draws(t) == 2 && t[12] == DrawInstanced(6, count) && t[20] == Draw(3)
  {
    var a := LowresPass(input, lowres, passSrvs, depthStateDisabled, count);
    var b := UpsamplePass(input, lowres, depthSrv, outputRtv, uavs);
    var c := Unbind(uavs);
    DrawsLastOnly(a);
    DrawsLastOnly(b);
    DrawsZeroIff(c);
    DrawsAppend(a, b);
    DrawsAppend(a + b, c);
  }

  /**
   * The low-resolution target is the one bound when the particles are drawn
   * and is no longer bound when its shader view is bound for the upsample;
   * the upsample then writes to the output target or, on the OIT path, to
   * no colour target.
   */
  lemma FrameTargets(input: Input, lowres: Target, passSrvs: seq<Handle>, depthStateDisabled: Handle,
                     count: nat, depthSrv: Handle, outputRtv: Handle, uavs: seq<Handle>)
    requires |uavs| == 3 && lowres.rtv != Null
    ensures var setup := LowresSetup(input, lowres, passSrvs, depthStateDisabled);
      var beforeBind := LowresPass(input, lowres, passSrvs, depthStateDisabled, count) + UpsampleSetup(uavs);
      var bind := BindSRVs(Pixel, 0, [lowres.srv, depthSrv, input.firstPersonDepth]);
      var cb := BindConstantBuffer(Pixel, 2, UpsampleCB);
      && FrameTrace(input, lowres, passSrvs, depthStateDisabled, count, depthSrv, outputRtv, uavs)
         == setup + [DrawInstanced(6, count)] + UpsampleSetup(uavs) + [bind, cb, UpsampleOutput(outputRtv, uavs), Draw(3)]
            + Unbind(uavs)
      && BoundTargets(setup) == [lowres.rtv]
      && lowres.rtv !in BoundTargets(beforeBind)
      && BoundTargets(beforeBind + [bind, cb, UpsampleOutput(outputRtv, uavs)]) == (if UseOit(uavs) then [Null] else [outputRtv])
  {
    var lead := [AllocateTarget(LowresSide(input.width), LowresSide(input.height)),
                 ClearRenderTarget(lowres.rtv),
                 WriteConstants(CloudCB),
                 SetVertexShader(CloudVS), SetPixelShader(CloudPS),
                 BindSRVs(Vertex, 0, passSrvs), BindSRVs(Pixel, 0, passSrvs),
                 BindConstantBuffer(Vertex, 1, CloudCB), BindConstantBuffer(Pixel, 1, CloudCB)];
    BoundTargetsAfter(lead, SetRenderTargets([lowres.rtv], Null),
                      [SetBlendState(PremultipliedBlend), SetDepthStencilState(depthStateDisabled, 0)]);
    var a := LowresPass(input, lowres, passSrvs, depthStateDisabled, count);
    var shaders := [SetVertexShader(UpsampleVS),
                    SetPixelShader(if UseOit(uavs) then UpsampleOitPS else UpsamplePS),
                    WriteConstants(UpsampleCB)];
    assert a + UpsampleSetup(uavs) == a + [SetRenderTargets([Null], Null)] + shaders;
    BoundTargetsAfter(a, SetRenderTargets([Null], Null), shaders);
    var bind := BindSRVs(Pixel, 0, [lowres.srv, depthSrv, input.firstPersonDepth]);
    var cb := BindConstantBuffer(Pixel, 2, UpsampleCB);
    var beforeBind := a + UpsampleSetup(uavs);
    assert beforeBind + [bind, cb, UpsampleOutput(outputRtv, uavs)]
        == beforeBind + [bind, cb] + [UpsampleOutput(outputRtv, uavs)] + [];
    BoundTargetsAfter(beforeBind + [bind, cb], UpsampleOutput(outputRtv, uavs), []);
  }

  /**
   * The OIT pixel shader is chosen exactly when all three UAVs are present,
   * and only then does the frame end by releasing them.
   */
  lemma FrameOit(input: Input, lowres: Target, passSrvs: seq<Handle>, depthStateDisabled: Handle,
                 count: nat, depthSrv: Handle, outputRtv: Handle, uavs: seq<Handle>)
    requires |uavs| == 3
    ensures var t := FrameTrace(input, lowres, passSrvs, depthStateDisabled, count, depthSrv, outputRtv, uavs);
      && (t[15] == SetPixelShader(UpsampleOitPS) <==> UseOit(uavs))
      && (t[19] == SetRenderTargetsAndUAVs(Null, uavs) <==> UseOit(uavs))
      && (|t| == 24 <==> UseOit(uavs))
      && (UseOit(uavs) ==> t[23] == SetRenderTargetsAndUAVs(Null, [Null, Null, Null]))
  {
    assert UpsampleOitPS != UpsamplePS;
  }

  // ---------------------------------------------------------------------
  // The effect
  // ---------------------------------------------------------------------

  class Clouds {
    var params: Params
    var particles: seq<Particle>
    var particlesDirty: bool
    var noiseTexture: Handle
    /** The contents of the structured particle buffer on the GPU. */
    var gpuParticles: seq<Particle>
    const particleTexture: Handle
    const particleBufferSrv: Handle
    const depthStateDisabled: Handle
    const sphere: SpherePoint
    /** The engine stream for `RebuildSeed`. */
    const particleStream: Stream

    /** The particle list always fits the GPU buffer. */
    predicate Valid()
      reads this`particles
    {
      |particles| <= Cap
    }

    /** `Clouds_bf3(device, shaders)`: default parameters, no particles yet, dirty, no noise texture. */
    constructor (engine: Engine, disk: DiskPoint, sphere: SpherePoint,
                 particleTexture: Handle, particleBufferSrv: Handle, depthStateDisabled: Handle)
      ensures Valid()
      ensures params == DefaultParamsFor(engine, disk)
      ensures particles == [] && particlesDirty && noiseTexture == Null && gpuParticles == []
      ensures this.sphere == sphere && particleStream == engine(RebuildSeed)
      ensures this.particleTexture == particleTexture && this.particleBufferSrv == particleBufferSrv
      ensures this.depthStateDisabled == depthStateDisabled
    {
      this.sphere := sphere;
      particleStream := engine(RebuildSeed);
      this.particleTexture := particleTexture;
      this.particleBufferSrv := particleBufferSrv;
      this.depthStateDisabled := depthStateDisabled;
      params := DefaultParamsFor(engine, disk);
      particles := [];
      particlesDirty := true;
      noiseTexture := Null;
      gpuParticles := [];
    }

    /** `rebuild_particles`: the list is rebuilt from scratch from the reseeded engine and marked dirty. */
    method RebuildParticles()
      modifies this`particles, this`particlesDirty
      ensures Valid()
      ensures particles == Particles(params, sphere, particleStream)
      ensures |particles| == Min(Cap, Requested(params.volumes))
      ensures particlesDirty
    {
      var vols := params.volumes;
      ghost var final := FillVolumes(params, vols, sphere, particleStream, [], 0);
      var out: seq<Particle> := [];
      var k: nat := 0;
      for v := 0 to |vols|
        invariant FillVolumes(params, vols[v..], sphere, particleStream, out, k) == final
      {
        assert vols[v..][1..] == vols[v + 1..];
        out, k := AppendVolume(params, vols[v], sphere, particleStream, out, k);
      }
      particles := out;
      particlesDirty := true;
      ParticlesCount(params, sphere, particleStream);
    }

    /**
     * `set_params`: stores the parameters, rebuilds exactly when the volume
     * layout or a particle size or the cluster radius changed, and always
     * marks the list for upload.
     */
    method SetParams(p: Params)
      requires Valid()
      modifies this`params, this`particles, this`particlesDirty
      ensures Valid()
      ensures params == p && particlesDirty
      ensures particles == if NeedsRebuild(old(params), p) then Particles(p, sphere, particleStream) else old(particles)
    {
      var needsRebuild := VolumeLayoutChanged(p.volumes, params.volumes);
      if Abs(p.particleSizeMin - params.particleSizeMin) > 1.0
         || Abs(p.particleSizeMax - params.particleSizeMax) > 1.0
         || Abs(p.clusterRadius - params.clusterRadius) > 1.0 {
        needsRebuild := true;
      }
      params := p;
      if needsRebuild {
        RebuildParticles();
      }
      particlesDirty := true;
    }

    /**
     * `upload_particles`: copies the list (at most the buffer's capacity)
     * when it is dirty and non-empty and the buffer could be mapped; the
     * dirty flag is cleared whenever the list was non-empty, mapped or not.
     */
    method UploadParticles(mapOk: bool)
      modifies this`particlesDirty, this`gpuParticles
      ensures particlesDirty == (old(particlesDirty) && |particles| == 0)
      ensures gpuParticles == if old(particlesDirty) && |particles| > 0 && mapOk
                              then particles[..Min(|particles|, Cap)] else old(gpuParticles)
    {
      if !particlesDirty || |particles| == 0 {
        return;
      }
      if mapOk {
        gpuParticles := particles[..Min(|particles|, Cap)];
      }
      particlesDirty := false;
    }

    /**
     * `render`: nothing when disabled; an empty list is rebuilt once and the
     * frame skipped if it stays empty; the noise texture is looked up once
     * (cloud noise, then white) and the frame skipped while neither exists;
     * otherwise the particles are uploaded and the two passes issued.
     */
    method Render(textures: map<string, Handle>, input: Input, depthSrv: Handle, outputRtv: Handle,
                  lowres: Target, uavs: seq<Handle>, mapOk: bool)
      returns (trace: seq<Event>, upsample: Option<UpsampleConstants>)
      requires Valid() && |uavs| == 3
      modifies this`particles, this`particlesDirty, this`noiseTexture, this`gpuParticles
      ensures Valid()
      ensures !params.enabled ==> trace == [] && upsample == None && unchanged(this)
      ensures params.enabled ==>
                particles == if |old(particles)| == 0 then Particles(params, sphere, particleStream) else old(particles)
      ensures params.enabled && |particles| == 0 ==>
                trace == [] && upsample == None && noiseTexture == old(noiseTexture) && gpuParticles == old(gpuParticles)
      ensures params.enabled && |particles| > 0 ==>
                noiseTexture == if old(noiseTexture) != Null then old(noiseTexture) else NoiseFallback(textures)
      ensures params.enabled && |particles| > 0 && noiseTexture == Null ==>
                trace == [] && upsample == None && gpuParticles == old(gpuParticles)
                && particlesDirty == (old(particlesDirty) || |old(particles)| == 0)
      ensures params.enabled && |particles| > 0 && noiseTexture != Null ==>
                && trace == FrameTrace(input, lowres, [depthSrv, particleTexture, particleBufferSrv, noiseTexture],
                                       depthStateDisabled, |particles|, depthSrv, outputRtv, uavs)
                && upsample == Some(UpsampleConstantsFor(input))
                && !particlesDirty
                && gpuParticles == if (old(particlesDirty) || |old(particles)| == 0) && mapOk
                                   then particles else old(gpuParticles)
    {
      trace := [];
      upsample := None;
      if !params.enabled {
        return;
      }
      if |particles| == 0 {
        RebuildParticles();
        if |particles| == 0 {
          return;
        }
      }
      if noiseTexture == Null {
        noiseTexture := Lookup(textures, CloudNoiseName);
        if noiseTexture == Null {
          noiseTexture := Lookup(textures, WhiteName);
        }
        if noiseTexture == Null {
          return;
        }
      }
      UploadParticles(mapOk);
      assert particles[..Min(|particles|, Cap)] == particles;
      trace := FrameTrace(input, lowres, [depthSrv, particleTexture, particleBufferSrv, noiseTexture],
                          depthStateDisabled, |particles|, depthSrv, outputRtv, uavs);
      upsample := Some(UpsampleConstantsFor(input));
    }
  }
}
