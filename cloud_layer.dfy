/**
 * The SWBF3-style three-layer cloud pass and its two procedural noise
 * textures.
 *
 * Each texture holds four channels of tileable value noise: integer lattice
 * values from a `uint32` hash, wrapped so that the lattice repeats every
 * `freq` cells, interpolated with smoothstep weights and summed over four
 * octaves. `uint32` arithmetic is modelled modulo 2^32; single-precision
 * arithmetic is modelled over the reals; the `int` arithmetic of the
 * lattice is unbounded (the frequencies used are at most 256).
 */
module CloudLayer {
  import opened Wrappers
  import opened Gpu
  import opened Numeric
  import opened ConstantBuffers

  // ---------------------------------------------------------------------
  // Lattice noise
  // ---------------------------------------------------------------------

  /** `x ^= x >> 16` on `uint32_t`. */
  function XorShift(x: U32): U32 {
    Xor32(x, x / 0x10000)
  }

  /** The first `rounds` rounds of `hash`: each xor-shifts and then multiplies by 0x45d9f3b. */
  function Rounds(rounds: nat, x: U32): U32 {
    if rounds == 0 then x else Mul32(XorShift(Rounds(rounds - 1, x)), 0x45d9f3b)
  }

  /** `hash`: two rounds and a last xor-shift. */
  function Hash(x: U32): U32 {
    XorShift(Rounds(2, x))
  }

  /** `((x % freq) + freq) % freq` with C++'s truncating remainder. */
  function Wrap(x: int, freq: int): int
    requires freq != 0
  {
    CRem(CRem(x, freq) + freq, freq)
  }

  /** For a positive frequency the wrap is the mathematical modulus: a lattice index in [0, freq). */
  lemma WrapIsMod(x: int, freq: int)
    requires freq > 0
    ensures Wrap(x, freq) == x % freq
    ensures 0 <= Wrap(x, freq) < freq
  {
    var q, r := x / freq, x % freq;
    assert x == q * freq + r;
    if x >= 0 {
      ModUnique(r + freq, freq, 1, r);
    } else {
      var nq, nr := (-x) / freq, (-x) % freq;
      assert -x == nq * freq + nr;
      if nr == 0 {
        ModUnique(freq, freq, 1, 0);
        ModUnique(x, freq, -nq, 0);
      } else {
        ModUnique(freq - nr, freq, 0, freq - nr);
        ModUnique(x, freq, -nq - 1, freq - nr);
      }
    }
  }

  /** The low 16 bits of a hash, scaled to [0, 1]. */
  function LatticeValue(h: U32): (r: real)
    ensures 0.0 <= r <= 1.0
  {
    (h % 0x10000) as real / 65535.0
  }

  /** The lattice value at (x, y): the hash of the wrapped cell. */
  function TileableNoise(x: int, y: int, freq: int, seed: U32): (r: real)
    requires freq != 0
    ensures 0.0 <= r <= 1.0
  {
    Cell(Wrap(x, freq), Wrap(y, freq), seed)
  }

  /** The lattice value of the wrapped cell (wx, wy): `hash(wx + wy * 65537 + seed)` in `uint32`. */
  function Cell(wx: int, wy: int, seed: U32): (r: real)
    ensures 0.0 <= r <= 1.0
  {
    LatticeValue(Hash(Add32(Add32(ToU32(wx), Mul32(ToU32(wy), 65537)), seed)))
  }

  /** The lattice repeats every `freq` cells along x. */
  lemma TileableNoiseShiftX(x: int, y: int, freq: int, seed: U32)
    requires freq > 0
    ensures TileableNoise(x + freq, y, freq, seed) == TileableNoise(x, y, freq, seed)
  {
    WrapPeriodic(x, freq);
  }

  /** The lattice repeats every `freq` cells along y. */
  lemma TileableNoiseShiftY(x: int, y: int, freq: int, seed: U32)
    requires freq > 0
    ensures TileableNoise(x, y + freq, freq, seed) == TileableNoise(x, y, freq, seed)
  {
    WrapPeriodic(y, freq);
  }

  /** Shifting a coordinate by `freq` does not change its wrapped cell. */
  lemma WrapPeriodic(x: int, freq: int)
    requires freq > 0
    ensures Wrap(x + freq, freq) == Wrap(x, freq)
  {
    WrapIsMod(x, freq);
    WrapIsMod(x + freq, freq);
    ModUnique(x + freq, freq, x / freq + 1, x % freq);
  }

  /** The smoothstep weight t^2 (3 - 2t). */
  function Smoothstep(t: real): (s: real)
    requires 0.0 <= t < 1.0
    ensures 0.0 <= s <= 1.0
  {
    assert 1.0 - t * t * (3.0 - 2.0 * t) == (1.0 - t) * (1.0 - t) * (1.0 + 2.0 * t);
    UnitWeight(t * t, 3.0 - 2.0 * t);
    UnitWeight((1.0 - t) * (1.0 - t), 1.0 + 2.0 * t);
    t * t * (3.0 - 2.0 * t)
  }

  /** A product of non-negative reals is non-negative. */
  lemma UnitWeight(a: real, b: real)
    requires a >= 0.0 && b >= 0.0
    ensures a * b >= 0.0
  {
  }

  /** `a + (b - a) * t`: for a weight in [0, 1] the result lies between a and b. */
  function Lerp(a: real, b: real, t: real): (r: real)
    requires 0.0 <= t <= 1.0
    ensures a <= b ==> a <= r <= b
    ensures b <= a ==> b <= r <= a
  {
    if a <= b then
      UnitWeight(b - a, t);
      UnitWeight(b - a, 1.0 - t);
      a + (b - a) * t
    else
      UnitWeight(a - b, t);
      UnitWeight(a - b, 1.0 - t);
      a + (b - a) * t
  }

  /** Bilinear blend of four lattice values. */
  function Bilerp(n00: real, n10: real, n01: real, n11: real, tx: real, ty: real): (r: real)
    requires 0.0 <= n00 <= 1.0 && 0.0 <= n10 <= 1.0 && 0.0 <= n01 <= 1.0 && 0.0 <= n11 <= 1.0
    requires 0.0 <= tx <= 1.0 && 0.0 <= ty <= 1.0
    ensures 0.0 <= r <= 1.0
  {
    Lerp(Lerp(n00, n10, tx), Lerp(n01, n11, tx), ty)
  }

  /** The noise in the cell with lower corner (x0, y0), at fractional offsets (tx, ty). */
  function CellNoise(x0: int, y0: int, tx: real, ty: real, freq: int, seed: U32): (r: real)
    requires freq != 0 && 0.0 <= tx < 1.0 && 0.0 <= ty < 1.0
    ensures 0.0 <= r <= 1.0
  {
    Bilerp(TileableNoise(x0, y0, freq, seed), TileableNoise(x0 + 1, y0, freq, seed),
           TileableNoise(x0, y0 + 1, freq, seed), TileableNoise(x0 + 1, y0 + 1, freq, seed),
           Smoothstep(tx), Smoothstep(ty))
  }

  /** `smooth_noise`: the four surrounding lattice values blended bilinearly with smoothstep weights. */
  function SmoothNoise(fx: real, fy: real, freq: int, seed: U32): (r: real)
    requires freq != 0
    ensures 0.0 <= r <= 1.0
  {
    CellNoise(fx.Floor, fy.Floor, fx - fx.Floor as real, fy - fy.Floor as real, freq, seed)
  }

  /** Moving the cell `freq` cells along x meets the same four lattice values. */
  lemma CellNoiseShiftX(x0: int, y0: int, tx: real, ty: real, freq: int, seed: U32)
    requires freq > 0 && 0.0 <= tx < 1.0 && 0.0 <= ty < 1.0
    ensures CellNoise(x0 + freq, y0, tx, ty, freq, seed) == CellNoise(x0, y0, tx, ty, freq, seed)
  {
    WrapPeriodic(x0, freq);
    WrapPeriodic(x0 + 1, freq);
  }

  /** Moving the cell `freq` cells along y meets the same four lattice values. */
  lemma CellNoiseShiftY(x0: int, y0: int, tx: real, ty: real, freq: int, seed: U32)
    requires freq > 0 && 0.0 <= tx < 1.0 && 0.0 <= ty < 1.0
    ensures CellNoise(x0, y0 + freq, tx, ty, freq, seed) == CellNoise(x0, y0, tx, ty, freq, seed)
  {
    WrapPeriodic(y0, freq);
    WrapPeriodic(y0 + 1, freq);
  }

  /** Shifting by an integer shifts the floor by it. */
  lemma FloorShift(v: real, k: int)
    ensures (v + k as real).Floor == v.Floor + k
  {
  }

  /** The interpolated noise tiles along x: shifting by `freq` changes nothing. */
  lemma SmoothNoiseShiftX(fx: real, fy: real, freq: int, seed: U32)
    requires freq > 0
    ensures SmoothNoise(fx + freq as real, fy, freq, seed) == SmoothNoise(fx, fy, freq, seed)
  {
    FloorShift(fx, freq);
    var x0 := fx.Floor;
    assert (fx + freq as real) - (fx + freq as real).Floor as real == fx - x0 as real;
    CellNoiseShiftX(x0, fy.Floor, fx - x0 as real, fy - fy.Floor as real, freq, seed);
  }

  /** The interpolated noise tiles along y. */
  lemma SmoothNoiseShiftY(fx: real, fy: real, freq: int, seed: U32)
    requires freq > 0
    ensures SmoothNoise(fx, fy + freq as real, freq, seed) == SmoothNoise(fx, fy, freq, seed)
  {
    FloorShift(fy, freq);
    var y0 := fy.Floor;
    assert (fy + freq as real) - (fy + freq as real).Floor as real == fy - y0 as real;
    CellNoiseShiftY(fx.Floor, y0, fx - fx.Floor as real, fy - y0 as real, freq, seed);
  }
  // ---------------------------------------------------------------------
  // Octaves
  // ---------------------------------------------------------------------

  /** The amplitude of octave n: halved on every octave from 1. */
  function Amp(n: nat): (a: real)
    ensures a > 0.0
  {
    if n == 0 then 1.0 else Amp(n - 1) * 0.5
  }

  /** The total amplitude of the first n octaves. */
  function TotalAmp(n: nat): real {
    if n == 0 then 0.0 else TotalAmp(n - 1) + Amp(n - 1)
  }

  /** The frequency of octave n: the base frequency doubled n times; never 0 when the base is not. */
  function OctaveFreq(baseFreq: int, n: nat): (f: int)
    ensures baseFreq > 0 ==> f >= baseFreq
    ensures baseFreq < 0 ==> f <= baseFreq
  {
    if n == 0 then baseFreq else 2 * OctaveFreq(baseFreq, n - 1)
  }

  /** A texel coordinate in lattice cells of an octave: `v * freq / 256`. */
  function CellCoord(v: real, freq: int): real {
    v * freq as real / 256.0
  }

  /**
   * Octave k + n of a sum whose octave k samples at `freq` cells per
   * texture: each later octave doubles the frequency; octave k's seed is
   * `seed + k * 1000`.
   */
  function Octave(n: nat, x: real, y: real, freq: int, seed: U32, k: nat): (r: real)
    requires freq != 0
    ensures 0.0 <= r <= 1.0
  {
    if n == 0 then SmoothNoise(CellCoord(x, freq), CellCoord(y, freq), freq, Add32(seed, ToU32(k * 1000)))
    else Octave(n - 1, x, y, 2 * freq, seed, k + 1)
  }

  /** Doubling the base frequency doubles every octave's frequency. */
  lemma {:induction false} OctaveFreqDouble(f: int, n: nat)
    ensures OctaveFreq(2 * f, n) == 2 * OctaveFreq(f, n)
  {
    if n > 0 {
      OctaveFreqDouble(f, n - 1);
    }
  }

  /** Octave j = k + n samples at g, the frequency doubled n times, with seed `seed + j * 1000`. */
  lemma {:induction false} OctaveIs(n: nat, x: real, y: real, freq: int, seed: U32, k: nat, j: nat, g: int)
    requires freq != 0 && j == k + n && g == OctaveFreq(freq, n)
    ensures g != 0
    ensures Octave(n, x, y, freq, seed, k) == SmoothNoise(CellCoord(x, g), CellCoord(y, g), g, Add32(seed, ToU32(j * 1000)))
  {
    if n > 0 {
      OctaveFreqDouble(freq, n - 1);
      OctaveIs(n - 1, x, y, 2 * freq, seed, k + 1, j, g);
    }
  }

  /** The samples of the four octaves at (x, y), each in [0, 1]. */
  function Samples(x: real, y: real, baseFreq: int, seed: U32): (s: seq<real>)
    requires baseFreq != 0
    ensures |s| == 4
    ensures forall j :: 0 <= j < 4 ==> s[j] == Octave(j, x, y, baseFreq, seed, 0)
    ensures forall j :: 0 <= j < 4 ==> 0.0 <= s[j] <= 1.0
  {
    seq(4, j requires 0 <= j => Octave(j, x, y, baseFreq, seed, 0))
  }

  /** The weighted sum of the first n samples, sample j weighing `Amp(j)`. */
  function WeightedSum(samples: seq<real>, n: nat): real
    requires n <= |samples|
  {
    if n == 0 then 0.0 else WeightedSum(samples, n - 1) + samples[n - 1] * Amp(n - 1)
  }

  /** A weight scaled by a value in [0, 1] stays in [0, weight]. */
  lemma UnitScaled(v: real, a: real)
    requires 0.0 <= v <= 1.0 && a > 0.0
    ensures 0.0 <= v * a <= a
  {
    UnitWeight(v, a);
    UnitWeight(1.0 - v, a);
  }

  /** Adding a sample in [0, 1] at weight a keeps a partial sum within its total weight. */
  lemma AddWeighted(sum: real, v: real, a: real, total: real)
    requires 0.0 <= sum <= total && 0.0 <= v <= 1.0 && a > 0.0
    ensures 0.0 <= sum + v * a <= total + a
  {
    UnitScaled(v, a);
  }

  /** A partial sum within its positive total weight, divided by it, lies in [0, 1]. */
  lemma UnitQuotient(v: real, t: real)
    requires 0.0 <= v <= t && t > 0.0
    ensures 0.0 <= v / t <= 1.0
  {
  }

  /** Four octaves weigh 1 + 0.5 + 0.25 + 0.125. */
  lemma TotalAmpFour()
    ensures TotalAmp(4) == 1.875
  {
    assert Amp(3) == 0.125;
  }

  /** Samples in [0, 1] sum, weighted, to between 0 and their total weight. */
  lemma {:induction false} WeightedSumRange(samples: seq<real>, n: nat)
    requires n <= |samples|
    requires forall j :: 0 <= j < |samples| ==> 0.0 <= samples[j] <= 1.0
    ensures 0.0 <= WeightedSum(samples, n) <= TotalAmp(n)
  {
    if n > 0 {
      WeightedSumRange(samples, n - 1);
      AddWeighted(WeightedSum(samples, n - 1), samples[n - 1], Amp(n - 1), TotalAmp(n - 1));
    }
  }

  /** Adding sample n at its amplitude extends the weighted sum by one sample. */
  lemma WeightedSumStep(samples: seq<real>, n: nat, sum: real, v: real, a: real)
    requires n < |samples|
    requires sum == WeightedSum(samples, n) && v == samples[n] && a == Amp(n)
    ensures sum + v * a == WeightedSum(samples, n + 1)
  {
  }

  /** `fbm_noise`: the weighted sum of four octaves divided by their total weight. */
  function Fbm(x: real, y: real, baseFreq: int, seed: U32): real
    requires baseFreq != 0
  {
    WeightedSum(Samples(x, y, baseFreq, seed), 4) / TotalAmp(4)
  }

  /** The noise is normalised: it lies in [0, 1]. */
  lemma FbmRange(x: real, y: real, baseFreq: int, seed: U32)
    requires baseFreq != 0
    ensures 0.0 <= Fbm(x, y, baseFreq, seed) <= 1.0
  {
    var samples := Samples(x, y, baseFreq, seed);
    WeightedSumRange(samples, 4);
    TotalAmpFour();
    UnitQuotient(WeightedSum(samples, 4), TotalAmp(4));
  }

  /** A texel coordinate 256 further on is `freq` cells further on. */
  lemma CellCoordShift(v: real, freq: int)
    ensures CellCoord(v + 256.0, freq) == CellCoord(v, freq) + freq as real
  {
  }

  /** Every octave repeats after 256 texels along x. */
  lemma {:induction false} OctaveTilesX(n: nat, x: real, y: real, freq: int, seed: U32, k: nat)
    requires freq > 0
    ensures Octave(n, x + 256.0, y, freq, seed, k) == Octave(n, x, y, freq, seed, k)
  {
    if n == 0 {
      CellCoordShift(x, freq);
      SmoothNoiseShiftX(CellCoord(x, freq), CellCoord(y, freq), freq, Add32(seed, ToU32(k * 1000)));
    } else {
      OctaveTilesX(n - 1, x, y, 2 * freq, seed, k + 1);
    }
  }

  /** Every octave repeats after 256 texels along y. */
  lemma {:induction false} OctaveTilesY(n: nat, x: real, y: real, freq: int, seed: U32, k: nat)
    requires freq > 0
    ensures Octave(n, x, y + 256.0, freq, seed, k) == Octave(n, x, y, freq, seed, k)
  {
    if n == 0 {
      CellCoordShift(y, freq);
      SmoothNoiseShiftY(CellCoord(x, freq), CellCoord(y, freq), freq, Add32(seed, ToU32(k * 1000)));
    } else {
      OctaveTilesY(n - 1, x, y, 2 * freq, seed, k + 1);
    }
  }

  /** The noise tiles: it repeats after 256 texels in both directions, so a wrapping sampler shows no seam. */
  lemma FbmTiles(x: real, y: real, baseFreq: int, seed: U32)
    requires baseFreq > 0
    ensures Fbm(x + 256.0, y, baseFreq, seed) == Fbm(x, y, baseFreq, seed)
    ensures Fbm(x, y + 256.0, baseFreq, seed) == Fbm(x, y, baseFreq, seed)
  {
    forall j | 0 <= j < 4
      ensures Samples(x + 256.0, y, baseFreq, seed)[j] == Samples(x, y, baseFreq, seed)[j]
      ensures Samples(x, y + 256.0, baseFreq, seed)[j] == Samples(x, y, baseFreq, seed)[j]
    {
      OctaveTilesX(j, x, y, baseFreq, seed, 0);
      OctaveTilesY(j, x, y, baseFreq, seed, 0);
    }
    assert Samples(x + 256.0, y, baseFreq, seed) == Samples(x, y, baseFreq, seed);
    assert Samples(x, y + 256.0, baseFreq, seed) == Samples(x, y, baseFreq, seed);
  }

  /** The accumulator loop of `fbm_noise`, computing `Fbm`. */
  method FbmNoise(x: real, y: real, baseFreq: int, seed: U32) returns (r: real)
    requires baseFreq != 0
    ensures r == Fbm(x, y, baseFreq, seed)
    ensures 0.0 <= r <= 1.0
  {
    ghost var samples := Samples(x, y, baseFreq, seed);
    var value := 0.0;
    var amplitude := 1.0;
    var total := 0.0;
    var freq := baseFreq;
    for oct := 0 to 4
      invariant value == WeightedSum(samples, oct)
      invariant amplitude == Amp(oct) && total == TotalAmp(oct)
      invariant freq == OctaveFreq(baseFreq, oct)
    {
      var sample := SmoothNoise(CellCoord(x, freq), CellCoord(y, freq), freq, Add32(seed, ToU32(oct * 1000)));
      OctaveIs(oct, x, y, baseFreq, seed, 0, oct, freq);
      WeightedSumStep(samples, oct, value, sample, amplitude);
      value := value + sample * amplitude;
      total := total + amplitude;
      amplitude := amplitude * 0.5;
      freq := freq * 2;
    }
    FbmRange(x, y, baseFreq, seed);
    r := value / total;
  }

  // ---------------------------------------------------------------------
  // Noise textures
  // ---------------------------------------------------------------------

  type Byte = b: int | 0 <= b < 256

  /** Texture side in texels. */
  const Size: nat := 256

  /** The RGBA8 data of one texture: 256 x 256 texels of four channels. */
  const TexelCount: nat := 256 * 256 * 4

  /** The base frequency of each channel. */
  const ChannelFreqs: seq<int> := [4, 8, 16, 32]

  /** `static_cast<uint8_t>(std::clamp(n * 255, 0, 255))`. */
  function ToByte(n: real): (b: Byte)
    ensures 0.0 <= n <= 1.0 ==> b == (n * 255.0).Floor
  {
    var v := if n * 255.0 < 0.0 then 0.0 else if n * 255.0 > 255.0 then 255.0 else n * 255.0;
    v.Floor
  }

  /** Channel ch of texel (x, y) of texture t: base frequency `{4, 8, 16, 32}[ch]`, seed `t * 10000 + ch * 2000`. */
  function ChannelByte(t: nat, x: nat, y: nat, ch: nat): Byte
    requires ch < 4
  {
    ToByte(Fbm(x as real, y as real, ChannelFreqs[ch], ToU32(t * 10000 + ch * 2000)))
  }

  /** Byte i of texture t: texel (x, y) channel ch sits at (y * 256 + x) * 4 + ch. */
  function TexelByte(t: nat, i: nat): Byte {
    ChannelByte(t, (i / 4) % Size, i / (4 * Size), i % 4)
  }

  /** Index (y * 256 + x) * 4 + ch decodes back to texel (x, y) and channel ch. */
  lemma TexelIndex(x: nat, y: nat, ch: nat)
    requires x < Size && ch < 4
    ensures var i := (y * Size + x) * 4 + ch; (i / 4) % Size == x && i / (4 * Size) == y && i % 4 == ch
  {
    var i := (y * Size + x) * 4 + ch;
    ModUnique(i, 4, y * Size + x, ch);
    assert i / 4 == y * Size + x;
    ModUnique(i / 4, Size, y, x);
    assert i == y * (4 * Size) + (x * 4 + ch);
  }

  /** The four bytes of texel (x, y), from its first index on, are its channels in order. */
  lemma TexelBytes(t: nat, x: nat, y: nat, idx: nat)
    requires x < Size && idx == (y * Size + x) * 4
    ensures forall i :: idx <= i < idx + 4 ==> TexelByte(t, i) == ChannelByte(t, x, y, i - idx)
  {
    forall i | idx <= i < idx + 4
      ensures TexelByte(t, i) == ChannelByte(t, x, y, i - idx)
    {
      TexelIndex(x, y, i - idx);
    }
  }

  /** The channel loop for texel (x, y) of texture t, whose bytes start at idx: its four channel bytes, and no others. */
  method FillTexel(t: nat, x: nat, y: nat, idx: nat, pixels: array<Byte>)
    requires idx + 4 <= pixels.Length
    modifies pixels
    ensures forall i :: 0 <= i < idx ==> pixels[i] == old(pixels[i])
    ensures forall i :: idx <= i < idx + 4 ==> pixels[i] == ChannelByte(t, x, y, i - idx)
  {
    for ch := 0 to 4
      invariant forall i :: 0 <= i < idx ==> pixels[i] == old(pixels[i])
      invariant forall i :: idx <= i < idx + ch ==> pixels[i] == ChannelByte(t, x, y, i - idx)
    {
      var n := FbmNoise(x as real, y as real, ChannelFreqs[ch], ToU32(t * 10000 + ch * 2000));
      pixels[idx + ch] := ToByte(n);
    }
  }

  /** The pixel loops of `generate_noise_textures` for texture t. */
  method FillNoiseTexture(t: nat, pixels: array<Byte>)
    requires pixels.Length == TexelCount
    modifies pixels
    ensures forall i :: 0 <= i < TexelCount ==> pixels[i] == TexelByte(t, i)
  {
    for y := 0 to Size
      invariant forall i :: 0 <= i < y * (4 * Size) ==> pixels[i] == TexelByte(t, i)
    {
      for x := 0 to Size
        invariant forall i :: 0 <= i < (y * Size + x) * 4 ==> pixels[i] == TexelByte(t, i)
      {
        var idx := (y * Size + x) * 4;
        FillTexel(t, x, y, idx, pixels);
        TexelBytes(t, x, y, idx);
      }
    }
  }

  // ---------------------------------------------------------------------
  // The pass
  // ---------------------------------------------------------------------

  /** `Cloud_layer_input`. */
  datatype Input = Input(rtv: Handle, depthSrv: Handle, width: nat, height: nat)

  const LayerVS: string := "cloud_layer_vs"
  const LayerPS: string := "cloud_layer_ps"
  const LayerBlend: string := "cloud_layer_premultiplied"
  const LayerCB: string := "cloud_layer_constants"

  /** The calls of one frame with both noise textures present. */
  function ApplyTrace(input: Input, tex0: Handle, tex1: Handle): seq<Event> {
    [ClearState,
     SetVertexShader(LayerVS), SetPixelShader(LayerPS),
     BindSRVs(Pixel, 0, [input.depthSrv, tex0, tex1]),
     BindConstantBuffer(Pixel, 0, LayerCB),
     SetBlendState(LayerBlend)]
    + [SetRenderTargets([input.rtv], Null)]
    + [Draw(3)]
  }

  /** A frame starts from a cleared context and draws one fullscreen triangle into the input target. */
  lemma ApplyTraceDraws(input: Input, tex0: Handle, tex1: Handle)
    ensures var t := ApplyTrace(input, tex0, tex1);
      Draws(t) == 1 && t[0] == ClearState && t[7] == Draw(3) && BoundTargets(t[..7]) == [input.rtv]
  {
    var t := ApplyTrace(input, tex0, tex1);
    DrawsLastOnly(t);
    var lead := [ClearState, SetVertexShader(LayerVS), SetPixelShader(LayerPS),
                 BindSRVs(Pixel, 0, [input.depthSrv, tex0, tex1]), BindConstantBuffer(Pixel, 0, LayerCB),
                 SetBlendState(LayerBlend)];
    assert t[..7] == lead + [SetRenderTargets([input.rtv], Null)] + [];
    BoundTargetsAfter(lead, SetRenderTargets([input.rtv], Null), []);
  }

  class Layer {
    var enabled: bool
    var params: CloudLayers
    var noiseTex0: Handle
    var noiseTex1: Handle
    /**
     * The contents of the constant buffer on the GPU: `None` until the
     * first successful map, since the buffer is created without initial
     * data.
     */
    var constants: Option<CloudLayers>
    /** The initial data of the two generated textures. */
    const texels0: array<Byte>
    const texels1: array<Byte>

    /**
     * `Cloud_layer(device, shaders)`: disabled, default layers, and the two
     * noise textures generated; `view0` and `view1` are the views the
     * device creates over them.
     */
    constructor (view0: Handle, view1: Handle)
      ensures !enabled && params == DefaultCloudLayers && constants == None
      ensures noiseTex0 == view0 && noiseTex1 == view1
      ensures fresh(texels0) && fresh(texels1) && texels0.Length == TexelCount && texels1.Length == TexelCount
      ensures forall i :: 0 <= i < TexelCount ==> texels0[i] == TexelByte(0, i) && texels1[i] == TexelByte(1, i)
    {
      enabled := false;
      params := DefaultCloudLayers;
      constants := None;
      noiseTex0 := view0;
      noiseTex1 := view1;
      texels0 := new Byte[TexelCount](_ => 0);
      texels1 := new Byte[TexelCount](_ => 0);
      new;
      FillNoiseTexture(0, texels0);
      FillNoiseTexture(1, texels1);
    }

    /** `enabled()`. */
    function Enabled(): bool
      reads this
    {
      enabled
    }

    /** `enabled(value)`: stores the flag and nothing else. */
    method SetEnabled(value: bool)
      modifies this`enabled
      ensures enabled == value && Enabled() == value
    {
      enabled := value;
    }

    /** `params()` handed out for writing. */
    method SetParams(p: CloudLayers)
      modifies this`params
      ensures params == p
    {
      params := p;
    }

    /** `layer(index)` handed out for writing: only that layer changes. */
    method SetLayer(index: nat, p: CloudLayerParams)
      requires index < 3
      modifies this`params
      ensures params == old(params).(layers := old(params).layers[index := p])
      ensures params.layers[index] == p
      ensures forall j :: 0 <= j < 3 && j != index ==> params.layers[j] == old(params.layers[j])
    {
      params := params.(layers := params.layers[index := p]);
    }

    /** `set_noise_textures`: a slot is replaced only by a non-null view. */
    method SetNoiseTextures(tex0: Handle, tex1: Handle)
      modifies this`noiseTex0, this`noiseTex1
      ensures noiseTex0 == if tex0 != Null then tex0 else old(noiseTex0)
      ensures noiseTex1 == if tex1 != Null then tex1 else old(noiseTex1)
    {
      if tex0 != Null {
        noiseTex0 := tex0;
      }
      if tex1 != Null {
        noiseTex1 := tex1;
      }
    }

    /**
     * `apply`: nothing when disabled or when either noise texture is
     * missing; otherwise the caller's constants are copied when the buffer
     * maps, and one fullscreen triangle is drawn whether or not it did.
     */
    method Apply(input: Input, cb: CloudLayers, mapped: bool) returns (trace: seq<Event>)
      modifies this`constants
      ensures !enabled || noiseTex0 == Null || noiseTex1 == Null ==> trace == [] && constants == old(constants)
      ensures enabled && noiseTex0 != Null && noiseTex1 != Null ==>
                && trace == ApplyTrace(input, noiseTex0, noiseTex1)
                && constants == if mapped then Some(cb) else old(constants)
    {
      trace := [];
      if !enabled {
        return;
      }
      if noiseTex0 == Null || noiseTex1 == Null {
        return;
      }
      if mapped {
        constants := Some(cb);
      }
      trace := ApplyTrace(input, noiseTex0, noiseTex1);
    }
  }
}
