/**
 * Parameters of the billboard-particle clouds: the volumes particles are
 * spawned in, the seeded generator of a default volume list, and the YAML
 * codecs of both records.
 *
 * The generator draws from one engine seeded with 42 and places each
 * volume at `(cos(angle) * r, _, sin(angle) * r)` with `r = sqrt(u) *
 * spread`. Cosine, sine and the square root are the `Trig` parameter;
 * `ExactTrig` states the two laws of theirs the disk bound rests on.
 */
module CloudsParams {
  import opened Gpu
  import opened Numeric
  import opened Sampling
  import opened Yaml

  /** `Cloud_volume`: an ellipsoid particles are spawned in. */
  datatype Volume = Volume(position: Vec3, radius: real, scale: Vec3, density: real)

  /** `Cloud_volume{}`. */
  const DefaultVolume: Volume := Volume(Vec3(0.0, 300.0, 0.0), 100.0, Vec3(1.0, 0.3, 1.0), 1.0)

  /** `Cloud_params`. */
  datatype Params = Params(
    enabled: bool,
    particlesPerVolume: int,
    particleSize: real,
    cloudAlpha: real,
    lightColor: Vec3,
    darkColor: Vec3,
    windSpeed: real,
    windDirection: Vec2,
    fadeNear: real,
    fadeFar: real,
    depthCutoffDistance: real,
    volumes: seq<Volume>)

  /** `Cloud_params{}`: disabled, with no volumes. */
  const DefaultParams: Params := Params(
    false, 30, 80.0, 0.6, Vec3(1.0, 0.98, 0.95), Vec3(0.7, 0.75, 0.85),
    2.0, Vec2(1.0, 0.0), 100.0, 5000.0, 50.0, [])

  // ---------------------------------------------------------------------
  // Default volumes

  /** The fixed seed of the volume generator. */
  const VolumeSeed: int := 42

  /** The upper bound of the generator's angle distribution. */
  const AngleMax: real := 6.28318

  /** The canonical samples one generated volume consumes. */
  const SamplesPerVolume: nat := 8

  /** `std::cos`, `std::sin` and `std::sqrt`. */
  datatype Trig = Trig(cos: real -> real, sin: real -> real, sqrt: real -> real)

  /** The laws of exact trigonometry and square roots the disk bound uses. */
  ghost predicate ExactTrig(t: Trig) {
    && (forall a: real :: t.cos(a) * t.cos(a) + t.sin(a) * t.sin(a) == 1.0)
    && (forall u: real :: 0.0 <= u ==> 0.0 <= t.sqrt(u) && t.sqrt(u) * t.sqrt(u) == u)
  }

  /**
   * The ranges a generated volume lies in: radius in [60, 180), horizontal
   * scales in [0.8, 1.3), vertical scale in [0.2, 0.4), density in
   * [0.7, 1.2), and height within 2.5% of the spread of the base height.
   */
  predicate InGeneratedRanges(v: Volume, height: real, spread: real) {
    && 60.0 <= v.radius < 180.0
    && 0.8 <= v.scale.x < 1.3
    && 0.2 <= v.scale.y < 0.4
    && 0.8 <= v.scale.z < 1.3
    && 0.7 <= v.density < 1.2
    && Abs(v.position.y - height) <= Abs(spread) * 0.025
  }

  /** A unit sample scaled into [base, base + width). */
  lemma UnitScaled(u: Unit, base: real, width: real)
    requires width > 0.0
    ensures base <= base + u * width < base + width
  {
    ScaledBelowWidth(u, base, base + width);
  }

  /** The size of a product is the product of the sizes. */
  lemma AbsProduct(a: real, b: real)
    ensures Abs(a * b) == Abs(a) * Abs(b)
  {
    if a < 0.0 {
      assert a * b == -((-a) * b);
    }
    if b < 0.0 {
      assert Abs(a) * b == -(Abs(a) * (-b));
    }
  }

  /** `(u - 0.5) * spread * 0.05` is at most 2.5% of the spread in size. */
  lemma HeightJitter(u: Unit, spread: real)
    ensures Abs((u - 0.5) * spread * 0.05) <= Abs(spread) * 0.025
  {
    var d := u - 0.5;
    AbsProduct(d, spread);
    AbsProduct(d * spread, 0.05);
    assert Abs(d) <= 0.5;
    assert 0.5 * Abs(spread) - Abs(d) * Abs(spread) == (0.5 - Abs(d)) * Abs(spread);
    NonNegativeProduct(0.5 - Abs(d), Abs(spread));
  }

  /** The horizontal position `(cos(angle) * r, sin(angle) * r)` with `r = sqrt(u) * spread`. */
  function DiskPoint(t: Trig, angle: real, u: Unit, spread: real): Vec2 {
    var r := t.sqrt(u) * spread;
    Vec2(t.cos(angle) * r, t.sin(angle) * r)
  }

  /**
   * One loop iteration of `generate_default_volumes`, reading the canonical
   * samples k .. k + 7 in the order the statements draw them: angle, disk
   * radius, height jitter, radius, the three scales and the density.
   */
  function VolumeAt(t: Trig, height: real, spread: real, rng: Stream, k: nat): (v: Volume)
    ensures InGeneratedRanges(v, height, spread)
  {
    var xz := DiskPoint(t, Uniform(0.0, AngleMax, rng(k)), rng(k + 1), spread);
    HeightJitter(rng(k + 2), spread);
    UnitScaled(rng(k + 3), 60.0, 120.0);
    UnitScaled(rng(k + 4), 0.8, 0.5);
    UnitScaled(rng(k + 5), 0.2, 0.2);
    UnitScaled(rng(k + 6), 0.8, 0.5);
    UnitScaled(rng(k + 7), 0.7, 0.5);
    Volume(
      Vec3(xz.x, height + (rng(k + 2) - 0.5) * spread * 0.05, xz.y),
      60.0 + rng(k + 3) * 120.0,
      Vec3(0.8 + rng(k + 4) * 0.5, 0.2 + rng(k + 5) * 0.2, 0.8 + rng(k + 6) * 0.5),
      0.7 + rng(k + 7) * 0.5)
  }

  /** The first n generated volumes: volume i reads the samples from 8 * i on. */
  function DefaultVolumes(n: nat, height: real, spread: real, rng: Stream, t: Trig): seq<Volume> {
    seq(n, i requires 0 <= i < n => VolumeAt(t, height, spread, rng, SamplesPerVolume * i))
  }

  /**
   * `generate_default_volumes(count, height, spread)`: clears the list and
   * appends exactly max(0, count) volumes, each in the generator's ranges
   * and determined by the arguments and the fixed seed alone; nothing but
   * the volume list changes.
   */
  method GenerateDefaultVolumes(p: Params, count: int, height: real, spread: real, engine: Engine, t: Trig)
    returns (q: Params)
    ensures q == p.(volumes := q.volumes)
    ensures |q.volumes| == if count < 0 then 0 else count
    ensures forall i :: 0 <= i < |q.volumes| ==> InGeneratedRanges(q.volumes[i], height, spread)
    ensures q.volumes == DefaultVolumes(|q.volumes|, height, spread, engine(VolumeSeed), t)
  {
    var rng := engine(VolumeSeed);
    var volumes: seq<Volume> := [];
    var n := if count < 0 then 0 else count;
    for i := 0 to n
      invariant volumes == DefaultVolumes(i, height, spread, rng, t)
    {
      var vol := VolumeAt(t, height, spread, rng, SamplesPerVolume * i);
      volumes := volumes + [vol];
    }
    q := p.(volumes := volumes);
  }

  /** A longer list extends a shorter one: volume i does not depend on how many follow it. */
  lemma DefaultVolumesPrefix(m: nat, n: nat, height: real, spread: real, rng: Stream, t: Trig)
    requires m <= n
    ensures DefaultVolumes(m, height, spread, rng, t) == DefaultVolumes(n, height, spread, rng, t)[..m]
  {
    var a := DefaultVolumes(m, height, spread, rng, t);
    var b := DefaultVolumes(n, height, spread, rng, t)[..m];
    assert forall i :: 0 <= i < m ==> a[i] == b[i];
  }

  /** `cos(a) * r` and `sin(a) * r` lie on the circle of radius r when cos² + sin² = 1. */
  lemma OnCircle(c: real, s: real, r: real)
    requires c * c + s * s == 1.0
    ensures (c * r) * (c * r) + (s * r) * (s * r) == r * r
  {
    assert (c * r) * (c * r) == (c * c) * (r * r);
    assert (s * r) * (s * r) == (s * s) * (r * r);
    assert (c * c) * (r * r) + (s * s) * (r * r) == (c * c + s * s) * (r * r);
  }

  /** `sqrt(u) * spread` with u in [0, 1) is at most the spread in size. */
  lemma DiskRadius(q: real, u: Unit, spread: real, r: real)
    requires 0.0 <= q && q * q == u && r == q * spread
    ensures r * r <= spread * spread
  {
    assert r * r == (q * q) * (spread * spread);
    AbsProduct(spread, spread);
    NonNegativeProduct(Abs(spread), Abs(spread));
    assert spread * spread - u * (spread * spread) == (1.0 - u) * (spread * spread);
    NonNegativeProduct(1.0 - u, spread * spread);
  }

  /** With exact trigonometry the disk point lies within the spread of the origin. */
  lemma DiskPointBound(t: Trig, angle: real, u: Unit, spread: real)
    requires ExactTrig(t)
    ensures var p := DiskPoint(t, angle, u, spread);
            p.x * p.x + p.y * p.y <= spread * spread
  {
    var q := t.sqrt(u);
    assert 0.0 <= q && q * q == u;
    var r := q * spread;
    OnCircle(t.cos(angle), t.sin(angle), r);
    DiskRadius(q, u, spread, r);
  }

  /**
   * With exact trigonometry every generated volume lies horizontally inside
   * the disk of radius `spread` around the origin.
   */
  lemma VolumeInDisk(t: Trig, height: real, spread: real, rng: Stream, k: nat)
    requires ExactTrig(t)
    ensures var v := VolumeAt(t, height, spread, rng, k);
            v.position.x * v.position.x + v.position.z * v.position.z <= spread * spread
  {
    DiskPointBound(t, Uniform(0.0, AngleMax, rng(k)), rng(k + 1), spread);
  }

  /** Every default volume lies inside the disk of radius `spread`. */
  lemma DefaultVolumesInDisk(n: nat, height: real, spread: real, rng: Stream, t: Trig, i: nat)
    requires ExactTrig(t) && i < n
    ensures var v := DefaultVolumes(n, height, spread, rng, t)[i];
            v.position.x * v.position.x + v.position.z * v.position.z <= spread * spread
  {
    VolumeInDisk(t, height, spread, rng, SamplesPerVolume * i);
  }

  // ---------------------------------------------------------------------
  // YAML

  /** `convert<Cloud_volume>::encode`. */
  function EncodeVolume(v: Volume): Node {
    map[
      Key.Position := Vec3Value(v.position),
      Key.Radius := Num(v.radius),
      Key.Scale := Vec3Value(v.scale),
      Key.Density := Num(v.density)]
  }

  /** `convert<Cloud_volume>::decode`: every field read over `Cloud_volume{}`. */
  function DecodeVolume(n: Node): Volume {
    var d := DefaultVolume;
    Volume(
      AsVec3(n, Key.Position, d.position),
      AsNum(n, Key.Radius, d.radius),
      AsVec3(n, Key.Scale, d.scale),
      AsNum(n, Key.Density, d.density))
  }

  /** Every key of an encoded volume reads back as the field it was written from. */
  lemma EncodedVolumeReads(v: Volume)
    ensures AsVec3(EncodeVolume(v), Key.Position, DefaultVolume.position) == v.position
    ensures AsNum(EncodeVolume(v), Key.Radius, DefaultVolume.radius) == v.radius
    ensures AsVec3(EncodeVolume(v), Key.Scale, DefaultVolume.scale) == v.scale
    ensures AsNum(EncodeVolume(v), Key.Density, DefaultVolume.density) == v.density
  {
  }

  /** Decoding an encoded volume gives it back. */
  lemma VolumeRoundTrip(v: Volume)
    ensures DecodeVolume(EncodeVolume(v)) == v
  {
    EncodedVolumeReads(v);
  }

  /** A mapping with none of the keys decodes to `Cloud_volume{}`. */
  lemma DecodeVolumeEmpty()
    ensures DecodeVolume(map[]) == DefaultVolume
  {
  }

  /**
   * One element of the `Volumes` sequence, `vol_node.as<Cloud_volume>()`:
   * a mapping is decoded; any other element has none of the keys and is
   * decoded as an empty mapping.
   */
  function ItemVolume(item: Value): Volume {
    if item.Map? then DecodeVolume(item.fields) else DecodeVolume(map[])
  }

  /** The volumes of a `Volumes` sequence, one per element, in order. */
  function VolumeList(items: seq<Value>): (vs: seq<Volume>) {
    seq(|items|, i requires 0 <= i < |items| => ItemVolume(items[i]))
  }

  /** The `Volumes` sequence of encoded volumes, one mapping per volume, in order. */
  function VolumeItems(vs: seq<Volume>): seq<Value> {
    seq(|vs|, i requires 0 <= i < |vs| => Map(EncodeVolume(vs[i])))
  }

  /** The encoder's loop: `volumes_node.push_back(vol)` for each volume. */
  method EncodeVolumeList(vs: seq<Volume>) returns (items: seq<Value>)
    ensures items == VolumeItems(vs)
  {
    items := [];
    for i := 0 to |vs|
      invariant items == VolumeItems(vs[..i])
    {
      items := items + [Map(EncodeVolume(vs[i]))];
    }
    assert vs[..|vs|] == vs;
  }

  /** The decoder's loop: clear, then `push_back` one volume per element. */
  method DecodeVolumeList(items: seq<Value>) returns (vs: seq<Volume>)
    ensures vs == VolumeList(items)
  {
    vs := [];
    for i := 0 to |items|
      invariant vs == VolumeList(items[..i])
    {
      vs := vs + [ItemVolume(items[i])];
    }
    assert items[..|items|] == items;
  }

  /** Reading back the sequence of encoded volumes gives the volumes, count and order included. */
  lemma VolumeListRoundTrip(vs: seq<Volume>)
    ensures VolumeList(VolumeItems(vs)) == vs
  {
    var rs := VolumeList(VolumeItems(vs));
    forall i | 0 <= i < |vs| ensures rs[i] == vs[i] {
      VolumeRoundTrip(vs[i]);
    }
  }

  /**
   * `node["Volumes"]`: one volume per element of a sequence, and no volumes
   * when the key is absent. Anything else also reads as no volumes here;
   * in the source a scalar or an empty mapping gives none, but iterating a
   * non-empty mapping hands `as<Cloud_volume>()` a pair, which throws
   * `InvalidNode`.
   */
  function VolumesAt(n: Node): seq<Volume> {
    if Key.Volumes in n && n[Key.Volumes].List? then VolumeList(n[Key.Volumes].items) else []
  }

  /**
   * `convert<Cloud_params>::encode`. An empty volume list is encoded here
   * as an empty list, where yaml-cpp leaves a node that was never pushed to
   * null; `VolumesAt` reads either as no volumes.
   */
  function EncodeParams(p: Params): Node {
    map[
      Key.Enable := Bool(p.enabled),
      Key.ParticlesPerVolume := Num(p.particlesPerVolume as real),
      Key.ParticleSize := Num(p.particleSize),
      Key.CloudAlpha := Num(p.cloudAlpha),
      Key.LightColor := Vec3Value(p.lightColor),
      Key.DarkColor := Vec3Value(p.darkColor),
      Key.WindSpeed := Num(p.windSpeed),
      Key.WindDirection := Vec2Value(p.windDirection),
      Key.FadeNear := Num(p.fadeNear),
      Key.FadeFar := Num(p.fadeFar),
      Key.DepthCutoffDistance := Num(p.depthCutoffDistance),
      Key.Volumes := List(VolumeItems(p.volumes))]
  }

  /**
   * `convert<Cloud_params>::decode`: every field read over `Cloud_params{}`,
   * then the volume list cleared and refilled from `Volumes`.
   */
  function DecodeParams(n: Node): Params {
    var d := DefaultParams;
    Params(
      AsBool(n, Key.Enable, d.enabled),
      AsInt(n, Key.ParticlesPerVolume, d.particlesPerVolume),
      AsNum(n, Key.ParticleSize, d.particleSize),
      AsNum(n, Key.CloudAlpha, d.cloudAlpha),
      AsVec3(n, Key.LightColor, d.lightColor),
      AsVec3(n, Key.DarkColor, d.darkColor),
      AsNum(n, Key.WindSpeed, d.windSpeed),
      AsVec2(n, Key.WindDirection, d.windDirection),
      AsNum(n, Key.FadeNear, d.fadeNear),
      AsNum(n, Key.FadeFar, d.fadeFar),
      AsNum(n, Key.DepthCutoffDistance, d.depthCutoffDistance),
      VolumesAt(n))
  }

  /** Decoded parameters are determined by what each of their keys reads as. */
  lemma DecodeParamsFields(n: Node, p: Params)
    requires AsBool(n, Key.Enable, DefaultParams.enabled) == p.enabled
    requires AsInt(n, Key.ParticlesPerVolume, DefaultParams.particlesPerVolume) == p.particlesPerVolume
    requires AsNum(n, Key.ParticleSize, DefaultParams.particleSize) == p.particleSize
    requires AsNum(n, Key.CloudAlpha, DefaultParams.cloudAlpha) == p.cloudAlpha
    requires AsVec3(n, Key.LightColor, DefaultParams.lightColor) == p.lightColor
    requires AsVec3(n, Key.DarkColor, DefaultParams.darkColor) == p.darkColor
    requires AsNum(n, Key.WindSpeed, DefaultParams.windSpeed) == p.windSpeed
    requires AsVec2(n, Key.WindDirection, DefaultParams.windDirection) == p.windDirection
    requires AsNum(n, Key.FadeNear, DefaultParams.fadeNear) == p.fadeNear
    requires AsNum(n, Key.FadeFar, DefaultParams.fadeFar) == p.fadeFar
    requires AsNum(n, Key.DepthCutoffDistance, DefaultParams.depthCutoffDistance) == p.depthCutoffDistance
    requires VolumesAt(n) == p.volumes
    ensures DecodeParams(n) == p
  {
  }

  /** The particle and colour keys of encoded parameters read back as written. */
  lemma EncodedParamsParticles(p: Params)
    ensures AsBool(EncodeParams(p), Key.Enable, DefaultParams.enabled) == p.enabled
    ensures AsInt(EncodeParams(p), Key.ParticlesPerVolume, DefaultParams.particlesPerVolume) == p.particlesPerVolume
    ensures AsNum(EncodeParams(p), Key.ParticleSize, DefaultParams.particleSize) == p.particleSize
    ensures AsNum(EncodeParams(p), Key.CloudAlpha, DefaultParams.cloudAlpha) == p.cloudAlpha
    ensures AsVec3(EncodeParams(p), Key.LightColor, DefaultParams.lightColor) == p.lightColor
    ensures AsVec3(EncodeParams(p), Key.DarkColor, DefaultParams.darkColor) == p.darkColor
  {
  }

  /** The wind and fade keys of encoded parameters read back as written. */
  lemma EncodedParamsMotion(p: Params)
    ensures AsNum(EncodeParams(p), Key.WindSpeed, DefaultParams.windSpeed) == p.windSpeed
    ensures AsVec2(EncodeParams(p), Key.WindDirection, DefaultParams.windDirection) == p.windDirection
    ensures AsNum(EncodeParams(p), Key.FadeNear, DefaultParams.fadeNear) == p.fadeNear
    ensures AsNum(EncodeParams(p), Key.FadeFar, DefaultParams.fadeFar) == p.fadeFar
    ensures AsNum(EncodeParams(p), Key.DepthCutoffDistance, DefaultParams.depthCutoffDistance) == p.depthCutoffDistance
  {
  }

  /** Decoding encoded parameters gives them back, every volume included. */
  lemma ParamsRoundTrip(p: Params)
    ensures DecodeParams(EncodeParams(p)) == p
  {
    EncodedParamsParticles(p);
    EncodedParamsMotion(p);
    VolumeListRoundTrip(p.volumes);
    assert VolumesAt(EncodeParams(p)) == p.volumes;
    DecodeParamsFields(EncodeParams(p), p);
  }

  /**
   * The decoder always rebuilds the volume list: a document without
   * `Volumes` yields none, and one with a sequence yields exactly one volume
   * per element, an element without keys giving `Cloud_volume{}`.
   */
  lemma DecodedVolumeCount(n: Node)
    ensures Key.Volumes !in n ==> DecodeParams(n).volumes == []
    ensures Key.Volumes in n && n[Key.Volumes].List? ==> |DecodeParams(n).volumes| == |n[Key.Volumes].items|
    ensures forall items: seq<Value>, i :: 0 <= i < |items| && items[i] == Map(map[]) ==>
              VolumeList(items)[i] == DefaultVolume
  {
  }
}
