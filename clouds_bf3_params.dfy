/**
 * Parameters of the BF3-style particle clouds and the seeded cloud-field
 * generator that fills their volume list.
 *
 * The generator draws from one engine seeded with 42. Its disk placement
 * `(cos(angle) * sqrt(u) * spread, sin(angle) * sqrt(u) * spread)` is
 * trigonometry and a square root, and is the `disk` parameter here.
 * Only the fields the particle builder and the rebuild comparison read are
 * modelled; the shading fields are copied into the constant buffer and
 * are not.
 */
module CloudsBf3Params {
  import opened Gpu
  import opened Sampling

  /** `Cloud_volume_bf3`: where and how densely particles are spawned. */
  datatype Volume = Volume(
    position: Vec3,
    scale: Vec3,
    density: real,
    clusterCount: int,
    particlesPerCluster: int)

  const DefaultVolume: Volume := Volume(Vec3(0.0, 500.0, 0.0), Vec3(200.0, 50.0, 200.0), 1.0, 8, 6)

  /** The part of `Cloud_params_bf3` that shapes the particle list. */
  datatype Params = Params(
    enabled: bool,
    particleSizeMin: real,
    particleSizeMax: real,
    clusterRadius: real,
    volumes: seq<Volume>)

  /** The fixed seed of the cloud-field generator. */
  const CloudFieldSeed: int := 42

  /** The upper bound of the generators' angle distribution. */
  const AngleMax: real := 6.28318

  /** `(cos(angle) * sqrt(u) * spread, sin(angle) * sqrt(u) * spread)`, given (angle, u, spread). */
  type DiskPoint = (real, real, real) -> Vec2

  /** The range facts every generated volume satisfies, for base height `base`. */
  predicate GeneratedVolume(v: Volume, base: real) {
    base <= v.position.y < base + 150.0
    && 0.5 <= v.density < 1.2
    && 8 <= v.clusterCount <= 22
    && 5 <= v.particlesPerCluster <= 10
  }

  lemma UnitProduct(a: real, b: real)
    requires 0.0 <= a < 1.0 && 0.0 <= b < 1.0
    ensures 0.0 <= a * b <= a
  {
    NonNegativeProduct(a, b);
    NonNegativeProduct(a, 1.0 - b);
    assert a * (1.0 - b) == a - a * b;
  }

  /** `static_cast<int>(u * n)` is a valid index into n elements. */
  lemma ScaledIndex(u: real, n: nat)
    requires 0.0 <= u < 1.0 && n > 0
    ensures 0 <= (u * n as real).Floor < n
  {
    ScaledBelowWidth(u, 0.0, n as real);
  }

  /**
   * One loop iteration of `generate_cloud_field`, reading canonical samples
   * from index k: the new volume and how many samples it consumed. The
   * clustering test always consumes its sample; the branch is taken only
   * when earlier volumes exist.
   */
  function NextVolume(prev: seq<Volume>, base: real, spread: real, rng: Stream, k: nat, disk: DiskPoint)
    : (r: (Volume, nat))
    ensures GeneratedVolume(r.0, base)
    ensures r.1 == (if rng(k + 2) > 0.7 && |prev| > 0 then 14 else 11)
  {
    var angle := Uniform(0.0, AngleMax, rng(k));
    var clustered := rng(k + 2) > 0.7 && |prev| > 0;
    var xz: Vec2 :=
      if clustered then
        ScaledIndex(rng(k + 3), |prev|);
        var near := prev[(rng(k + 3) * |prev| as real).Floor];
        Vec2(near.position.x + (rng(k + 4) - 0.5) * 400.0, near.position.z + (rng(k + 5) - 0.5) * 400.0)
      else
        disk(angle, rng(k + 1), spread);
    var j := if clustered then k + 6 else k + 3;
    var height := rng(j);
    UnitProduct(height, height);
    UnitProduct(rng(j + 1), rng(j + 2));
    var sizeMult := 0.4 + rng(j + 1) * rng(j + 2) * 1.8;
    ScaledIndex(rng(j + 7), 6);
    var vol := Volume(
      Vec3(xz.x, base + height * height * 150.0, xz.y),
      Vec3(180.0 * sizeMult + rng(j + 3) * 150.0, 40.0 * sizeMult + rng(j + 4) * 50.0,
           180.0 * sizeMult + rng(j + 5) * 150.0),
      0.5 + rng(j + 6) * 0.7,
      5 + (sizeMult * 8.0).Floor,
      5 + (rng(j + 7) * 6.0).Floor);
    (vol, j + 8 - k)
  }

  /** The first n volumes of the field and the samples they consumed: the reference for the loop. */
  function CloudField(n: nat, base: real, spread: real, rng: Stream, disk: DiskPoint): (r: (seq<Volume>, nat))
    ensures |r.0| == n
    ensures forall i :: 0 <= i < n ==> GeneratedVolume(r.0[i], base)
    decreases n, 1
  {
    if n == 0 then ([], 0) else CloudFieldStep(n, base, spread, rng, disk)
  }

  /** The first n - 1 volumes with the n-th appended, and the samples they all consumed. */
  function CloudFieldStep(n: nat, base: real, spread: real, rng: Stream, disk: DiskPoint): (r: (seq<Volume>, nat))
    requires n > 0
    ensures |r.0| == n
    ensures forall i :: 0 <= i < n ==> GeneratedVolume(r.0[i], base)
    decreases n, 0
  {
    var prev := CloudField(n - 1, base, spread, rng, disk);
    var next := NextVolume(prev.0, base, spread, rng, prev.1, disk);
    (prev.0 + [next.0], prev.1 + next.1)
  }

  /**
   * `generate_cloud_field(volume_count, base_height, spread_radius)`: clears
   * the list and appends exactly max(0, volume_count) volumes, each in the
   * generator's ranges, determined by the arguments and the fixed seed alone:
   * the volumes previously held play no part.
   */
  method GenerateCloudField(p: Params, volumeCount: int, baseHeight: real, spreadRadius: real,
                            engine: Engine, disk: DiskPoint)
    returns (q: Params)
    ensures q == p.(volumes := q.volumes)
    ensures |q.volumes| == if volumeCount < 0 then 0 else volumeCount
    ensures forall i :: 0 <= i < |q.volumes| ==> GeneratedVolume(q.volumes[i], baseHeight)
    ensures q.volumes == CloudField(|q.volumes|, baseHeight, spreadRadius, engine(CloudFieldSeed), disk).0
  {
    var rng := engine(CloudFieldSeed);
    var n := if volumeCount < 0 then 0 else volumeCount;
    var volumes: seq<Volume> := [];
    var next: nat := 0;
    for i := 0 to n
      invariant (volumes, next) == CloudField(i, baseHeight, spreadRadius, rng, disk)
    {
      var step := NextVolume(volumes, baseHeight, spreadRadius, rng, next, disk);
      volumes, next := volumes + [step.0], next + step.1;
    }
    q := p.(volumes := volumes);
  }

  /** `Cloud_params_bf3()`: the default fields, then a 50-volume field at base height 450, spread 4000. */
  method DefaultParams(engine: Engine, disk: DiskPoint) returns (p: Params)
    ensures p.enabled && p.particleSizeMin == 100.0 && p.particleSizeMax == 280.0 && p.clusterRadius == 70.0
    ensures |p.volumes| == 50
    ensures forall i :: 0 <= i < 50 ==> GeneratedVolume(p.volumes[i], 450.0)
    ensures p == DefaultParamsFor(engine, disk)
  {
    p := Params(true, 100.0, 280.0, 70.0, []);
    p := GenerateCloudField(p, 50, 450.0, 4000.0, engine, disk);
  }

  /** The value `Cloud_params_bf3()` constructs. */
  function DefaultParamsFor(engine: Engine, disk: DiskPoint): Params {
    Params(true, 100.0, 280.0, 70.0, CloudField(50, 450.0, 4000.0, engine(CloudFieldSeed), disk).0)
  }

  /** A longer field extends a shorter one: volume i does not depend on how many follow it. */
  lemma {:induction false} CloudFieldPrefix(n: nat, m: nat, base: real, spread: real, rng: Stream, disk: DiskPoint)
    requires m <= n
    ensures CloudField(m, base, spread, rng, disk).0 == CloudField(n, base, spread, rng, disk).0[..m]
    decreases n
  {
    if m < n {
      CloudFieldPrefix(n - 1, m, base, spread, rng, disk);
      CloudFieldDropLast(n, base, spread, rng, disk);
      PrefixOfPrefix(CloudField(n, base, spread, rng, disk).0, CloudField(n - 1, base, spread, rng, disk).0, n - 1, m);
    }
  }

  lemma PrefixOfPrefix(s: seq<Volume>, t: seq<Volume>, k: nat, m: nat)
    requires m <= k <= |s| && t == s[..k]
    ensures t[..m] == s[..m]
  {
  }

  /** One step of the generator only appends: dropping its volume gives the shorter field back. */
  lemma CloudFieldDropLast(n: nat, base: real, spread: real, rng: Stream, disk: DiskPoint)
    requires n > 0
    ensures CloudField(n - 1, base, spread, rng, disk).0 == CloudField(n, base, spread, rng, disk).0[..n - 1]
  {
    var prev := CloudField(n - 1, base, spread, rng, disk);
    var last := NextVolume(prev.0, base, spread, rng, prev.1, disk).0;
    assert CloudField(n, base, spread, rng, disk).0 == prev.0 + [last];
    assert (prev.0 + [last])[..n - 1] == prev.0;
  }
}
