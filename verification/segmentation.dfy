/**
 * The segmentation side of `LiverModel`: the red-channel copy of the decoded segmentation
 * image, the region lookup under a texture coordinate, the sampled region centroids, and the
 * two shader uniforms the model writes.
 *
 * The decoded image is a row-major RGBA byte buffer of `4 * width * height` bytes, pixel
 * `(x, y)` starting at byte `(y * width + x) * 4`; the red byte is the region id (0 for none).
 */
module Segmentation {
  import opened Wrappers
  import opened Vectors
  import opened LiverData
  import InscriptionShader

  /** The pixel size of the segmentation image. */
  datatype Size = Size(width: nat, height: nat)

  predicate IsByteBuffer(data: seq<int>)
  {
    forall i :: 0 <= i < |data| ==> 0 <= data[i] < 256
  }

  /** `data` holds four bytes for each of the `width * height` pixels. */
  predicate IsImage(size: Size, data: seq<int>)
  {
    |data| == 4 * Mul(size.height, size.width)
  }

  /**
   * `a * b` by repeated addition. Pixel offsets are written with it so that the solver's
   * arithmetic stays linear; `MulIsProduct` ties it to `*`.
   */
  function Mul(a: nat, b: nat): nat
  {
    if a == 0 then 0 else Mul(a - 1, b) + b
  }

  lemma {:induction false} MulIsProduct(a: nat, b: nat)
    ensures Mul(a, b) == a * b
  {
    if a > 0 {
      MulIsProduct(a - 1, b);
    }
  }

  lemma {:induction false} MulMonotone(a: nat, c: nat, b: nat)
    requires a <= c
    decreases c
    ensures Mul(a, b) <= Mul(c, b)
  {
    if a < c {
      MulMonotone(a, c - 1, b);
    }
  }

  lemma {:induction false} MulAdd(a: nat, c: nat, b: nat)
    decreases a
    ensures Mul(a + c, b) == Mul(a, b) + Mul(c, b)
  {
    if a > 0 {
      MulAdd(a - 1, c, b);
    }
  }

  /** The first byte of pixel `(x, y)`, `(y * width + x) * 4`: its red channel. */
  function PixelIndex(size: Size, x: nat, y: nat): (i: nat)
    requires x < size.width && y < size.height
    ensures i + 4 <= 4 * Mul(size.height, size.width)
  {
    MulMonotone(y + 1, size.height, size.width);
    (Mul(y, size.width) + x) * 4
  }

  /** The red byte of every pixel kept, every other byte cleared (a fresh `Uint8Array` is zero). */
  function RedChannel(data: seq<int>): seq<int>
  {
    seq(|data|, i requires 0 <= i < |data| => if i % 4 == 0 then data[i] else 0)
  }

  /** The cell `floor(r)` of a row of `n` cells, or none when `r` falls outside `[0, n)`. */
  function Cell(r: real, n: nat): (c: Option<nat>)
    ensures c.None? <==> !(0.0 <= r < n as real)
    ensures c.Some? ==> c.value < n && c.value as real <= r < c.value as real + 1.0
  {
    var k := r.Floor;
    if k < 0 || k >= n then None else Some(k)
  }

  /**
   * The pixel at scaled coordinates `(px, py)`: column `floor(px)` and row `floor(py)`, or
   * none when either falls outside the image; nothing is clamped to the border.
   */
  function PixelOf(size: Size, px: real, py: real): (p: Option<(nat, nat)>)
    ensures p.Some? <==> 0.0 <= px < size.width as real && 0.0 <= py < size.height as real
    ensures p.Some? ==>
      p.value.0 < size.width && p.value.1 < size.height &&
      p.value.0 as real <= px < p.value.0 as real + 1.0 &&
      p.value.1 as real <= py < p.value.1 as real + 1.0
  {
    var x := Cell(px, size.width);
    var y := Cell(py, size.height);
    if x.None? || y.None? then None else Some((x.value, y.value))
  }

  /**
   * The pixel under texture coordinate `(u, v)`: column `floor(u * width)` and row
   * `floor((1 - v) * height)`, so the top row of the image is `v` near 1.
   */
  function PixelAt(size: Size, u: real, v: real): Option<(nat, nat)>
  {
    PixelOf(size, u * size.width as real, (1.0 - v) * size.height as real)
  }

  /** The region id the decoded image holds under `(u, v)`, or 0 off the image. */
  function RegionAt(size: Size, data: seq<int>, u: real, v: real): int
    requires IsImage(size, data)
  {
    match PixelAt(size, u, v)
    case None => 0
    case Some((x, y)) => data[PixelIndex(size, x, y)]
  }

  // ---------------------------------------------------------------------------------
  // Sampled centroids

  /** Centroids are computed from every `SampleStep`-th pixel along both axes. */
  const SampleStep: nat := 4

  /** A pixel the centroid scan visits. */
  predicate Sampled(size: Size, x: int, y: int)
  {
    0 <= x < size.width && 0 <= y < size.height && x % SampleStep == 0 && y % SampleStep == 0
  }

  /** How many sampled pixels carry an id, and the sums of their columns and rows. */
  datatype Tally = Tally(count: nat, sumX: int, sumY: int)

  const NoPixels := Tally(0, 0, 0)

  function Plus(a: Tally, b: Tally): Tally
  {
    Tally(a.count + b.count, a.sumX + b.sumX, a.sumY + b.sumY)
  }

  lemma PlusNoPixels(t: Tally)
    ensures Plus(NoPixels, t) == t && Plus(t, NoPixels) == t
  {
  }

  /** The tally of row `y` from column `x` on, stepping by `SampleStep`. */
  function RowTally(size: Size, data: seq<int>, id: int, y: nat, x: nat): Tally
    requires IsImage(size, data) && y < size.height
    decreases size.width - x
  {
    if x >= size.width then NoPixels
    else
      var here := if data[PixelIndex(size, x, y)] == id then Tally(1, x, y) else NoPixels;
      Plus(here, RowTally(size, data, id, y, x + SampleStep))
  }

  /** The tally of the sampled rows from row `y` on. */
  function GridTally(size: Size, data: seq<int>, id: int, y: nat): Tally
    requires IsImage(size, data)
    decreases size.height - y
  {
    if y >= size.height then NoPixels
    else Plus(RowTally(size, data, id, y, 0), GridTally(size, data, id, y + SampleStep))
  }

  /** The whole-image tally of region `id`. */
  function RegionTally(size: Size, data: seq<int>, id: int): Tally
    requires IsImage(size, data)
  {
    GridTally(size, data, id, 0)
  }

  /** Mean column over width, and one minus mean row over height. */
  function Centroid(size: Size, t: Tally): Vec2
    requires t.count > 0 && size.width > 0 && size.height > 0
  {
    var n := t.count as real;
    Vec2(t.sumX as real / n / size.width as real, 1.0 - t.sumY as real / n / size.height as real)
  }

  /** The centroid map `extractInscriptionPositionsFromTexture` builds. */
  function RegionCentroids(size: Size, data: seq<int>): map<int, Vec2>
    requires IsImage(size, data)
  {
    map id | MinInscriptionId <= id <= MaxInscriptionId && RegionTally(size, data, id).count > 0 ::
      TallyNonEmpty(size, data, id, 0);
      Centroid(size, RegionTally(size, data, id))
  }

  /** Two distinct sampled coordinates lie at least one step apart. */
  lemma NextSample(a: int, b: int)
    requires a % SampleStep == 0 && b % SampleStep == 0 && a < b
    ensures a + SampleStep <= b
  {
  }

  /** Sampled pixel `(x, y)` carries region `id`. */
  predicate Carries(size: Size, data: seq<int>, id: int, x: int, y: int)
    requires IsImage(size, data)
  {
    Sampled(size, x, y) && data[PixelIndex(size, x, y)] == id
  }

  /** A row tally counts exactly the sampled pixels of that row, from `x` on, that carry `id`. */
  lemma {:induction false} RowTallyCounts(size: Size, data: seq<int>, id: int, y: nat, x: nat)
    requires IsImage(size, data) && y < size.height && y % SampleStep == 0 && x % SampleStep == 0
    decreases size.width - x
    ensures RowTally(size, data, id, y, x).count > 0 <==> exists c :: x <= c && Carries(size, data, id, c, y)
  {
    if x < size.width {
      RowTallyCounts(size, data, id, y, x + SampleStep);
      var rest := RowTally(size, data, id, y, x + SampleStep);
      if data[PixelIndex(size, x, y)] == id {
        assert Carries(size, data, id, x, y);
        assert RowTally(size, data, id, y, x).count == rest.count + 1;
      } else {
        assert RowTally(size, data, id, y, x).count == rest.count;
        forall c | x <= c && Carries(size, data, id, c, y)
          ensures x + SampleStep <= c
        {
          NextSample(x, c);
        }
      }
    }
  }

  /** A grid tally counts exactly the sampled pixels, from row `y` on, that carry `id`. */
  lemma {:induction false} GridTallyCounts(size: Size, data: seq<int>, id: int, y: nat)
    requires IsImage(size, data) && y % SampleStep == 0
    decreases size.height - y
    ensures GridTally(size, data, id, y).count > 0 <==> exists c, r :: y <= r && Carries(size, data, id, c, r)
  {
    if y < size.height {
      GridTallyCounts(size, data, id, y + SampleStep);
      RowTallyCounts(size, data, id, y, 0);
      assert GridTally(size, data, id, y) ==
        Plus(RowTally(size, data, id, y, 0), GridTally(size, data, id, y + SampleStep));
      if GridTally(size, data, id, y).count == 0 {
        forall c, r | y <= r && Carries(size, data, id, c, r)
          ensures false
        {
          if r != y {
            NextSample(y, r);
          }
        }
      }
    }
  }

  /** A non-empty tally lies on a non-empty image. */
  lemma {:induction false} TallyNonEmpty(size: Size, data: seq<int>, id: int, y: nat)
    requires IsImage(size, data)
    decreases size.height - y
    ensures GridTally(size, data, id, y).count > 0 ==> size.width > 0 && size.height > 0
  {
    if y < size.height {
      TallyNonEmpty(size, data, id, y + SampleStep);
    }
  }

  /** Each counted column is below the width and each counted row below the height. */
  lemma {:induction false} RowTallyBounds(size: Size, data: seq<int>, id: int, y: nat, x: nat)
    requires IsImage(size, data) && y < size.height
    decreases size.width - x
    ensures var t := RowTally(size, data, id, y, x);
      0 <= t.sumX && t.sumX + t.count <= Mul(t.count, size.width) &&
      0 <= t.sumY && t.sumY + t.count <= Mul(t.count, size.height)
  {
    if x < size.width {
      RowTallyBounds(size, data, id, y, x + SampleStep);
      var here := if data[PixelIndex(size, x, y)] == id then Tally(1, x, y) else NoPixels;
      var rest := RowTally(size, data, id, y, x + SampleStep);
      assert RowTally(size, data, id, y, x) == Plus(here, rest);
      SumBounds(here, rest, size.width, size.height);
    }
  }

  /** The bounds `sumX + count <= count * w` and `sumY + count <= count * h` add up. */
  lemma SumBounds(a: Tally, b: Tally, w: nat, h: nat)
    requires 0 <= a.sumX && a.sumX + a.count <= Mul(a.count, w) && 0 <= a.sumY && a.sumY + a.count <= Mul(a.count, h)
    requires 0 <= b.sumX && b.sumX + b.count <= Mul(b.count, w) && 0 <= b.sumY && b.sumY + b.count <= Mul(b.count, h)
    ensures var t := Plus(a, b);
      0 <= t.sumX && t.sumX + t.count <= Mul(t.count, w) && 0 <= t.sumY && t.sumY + t.count <= Mul(t.count, h)
  {
    MulAdd(a.count, b.count, w);
    MulAdd(a.count, b.count, h);
  }

  lemma {:induction false} GridTallyBounds(size: Size, data: seq<int>, id: int, y: nat)
    requires IsImage(size, data)
    decreases size.height - y
    ensures var t := GridTally(size, data, id, y);
      0 <= t.sumX && t.sumX + t.count <= Mul(t.count, size.width) &&
      0 <= t.sumY && t.sumY + t.count <= Mul(t.count, size.height)
  {
    if y < size.height {
      var row := RowTally(size, data, id, y, 0);
      var rest := GridTally(size, data, id, y + SampleStep);
      GridTallyBounds(size, data, id, y + SampleStep);
      RowTallyBounds(size, data, id, y, 0);
      assert GridTally(size, data, id, y) == Plus(row, rest);
      SumBounds(row, rest, size.width, size.height);
    }
  }

  /** Division by a positive number keeps a bound: `a <= b * n` gives `a / n <= b`. */
  lemma DivideBound(a: real, b: real, n: real)
    requires n > 0.0 && a <= b * n
    ensures a / n <= b
  {
    var q := a / n;
    assert q * n == a;
    if q > b {
      assert (q - b) * n > 0.0;
    }
  }

  /** A quotient of a non-negative number by a positive one is non-negative. */
  lemma DivideNonNegative(a: real, n: real)
    requires n > 0.0 && a >= 0.0
    ensures a / n >= 0.0
  {
    assert a / n * n == a;
  }

  /** A quotient below its positive divisor is below 1. */
  lemma DivideBelowOne(a: real, n: real)
    requires n > 0.0 && a < n
    ensures a / n < 1.0
  {
    assert a / n * n == a;
  }

  /** `s / n / d` lies in `[0, 1)` when `s >= 0` and `s + n <= n * d`: a mean below `d`, scaled by `1 / d`. */
  lemma MeanFraction(s: int, n: nat, d: nat)
    requires n > 0 && d > 0 && 0 <= s && s + n <= Mul(n, d)
    ensures 0.0 <= s as real / n as real / d as real < 1.0
  {
    MulIsProduct(n, d);
    var m := s as real / n as real;
    assert s as real <= (d as real - 1.0) * n as real;
    DivideBound(s as real, d as real - 1.0, n as real);
    DivideNonNegative(s as real, n as real);
    DivideBelowOne(m, d as real);
    DivideNonNegative(m, d as real);
  }

  /** Every region a sampled pixel carries gets an entry, and no other id does. */
  lemma CentroidKeys(size: Size, data: seq<int>, id: int)
    requires IsImage(size, data)
    ensures id in RegionCentroids(size, data) <==>
      IsInscriptionId(id) && exists c, r :: Carries(size, data, id, c, r)
  {
    GridTallyCounts(size, data, id, 0);
  }

  /** Every stored position lies in the texture square: `u` in `[0, 1)` and `v` in `(0, 1]`. */
  lemma CentroidsInTextureSquare(size: Size, data: seq<int>, id: int)
    requires IsImage(size, data) && id in RegionCentroids(size, data)
    ensures var p := RegionCentroids(size, data)[id];
      0.0 <= p.x < 1.0 && 0.0 < p.y <= 1.0
  {
    var t := RegionTally(size, data, id);
    TallyNonEmpty(size, data, id, 0);
    GridTallyBounds(size, data, id, 0);
    MeanFraction(t.sumX, t.count, size.width);
    MeanFraction(t.sumY, t.count, size.height);
  }

  // ---------------------------------------------------------------------------------
  // The shader reads the same region

  /**
   * `mask` samples the decoded image's red channel at the nearest texel, scaled to [0, 1]:
   * at texture coordinate `(s, t)` it reads column `floor(s * width)` and row
   * `floor(t * height)` (the segmentation texture is not flipped on upload), which is the
   * pixel `PixelAt` finds at `(s, 1 - t)`.
   */
  ghost predicate SamplesNearest(mask: Vec2 -> real, size: Size, data: seq<int>)
    requires IsImage(size, data)
  {
    forall st: Vec2 {:trigger mask(st)} ::
      PixelAt(size, st.x, 1.0 - st.y).Some? ==>
        mask(st) == RegionAt(size, data, st.x, 1.0 - st.y) as real / 255.0
  }

  /**
   * The shader's region id at a texture coordinate is the region the lookup finds there:
   * both flip `v`, and decoding by rounding recovers the byte.
   */
  lemma ShaderSeesLookupRegion(mask: Vec2 -> real, size: Size, data: seq<int>, u: real, v: real)
    requires IsImage(size, data) && IsByteBuffer(data) && SamplesNearest(mask, size, data)
    requires PixelAt(size, u, v).Some?
    ensures InscriptionShader.FragmentId(mask, Vec2(u, v)) == RegionAt(size, data, u, v)
  {
    var st := Vec2(u, 1.0 - v);
    assert 1.0 - st.y == v;
    var b := RegionAt(size, data, u, v);
    assert mask(st) == b as real / 255.0;
    InscriptionShader.DecodeRoundTrip(b);
  }

  // ---------------------------------------------------------------------------------
  // The model object

  class LiverModel {
    /** `maskTexture`: the loaded segmentation image, or none. */
    var mask: Option<Size>
    /** `textureData`: the red-channel copy of the decoded segmentation image. */
    var textureData: array?<int>
    /** The decoded RGBA bytes `textureData` was copied from. */
    ghost var decoded: seq<int>
    /** `inscriptionPositions`: region id to centroid UV. */
    var inscriptionPositions: map<int, Vec2>
    /** The `time` shader uniform. */
    var timeUniform: real
    /** The `hoveredInscription` shader uniform. */
    var hoveredUniform: int

    ghost predicate Valid()
      reads this, textureData
    {
      IsByteBuffer(decoded) &&
      (textureData != null ==> textureData[..] == RedChannel(decoded)) &&
      (textureData != null && mask.Some? ==> IsImage(mask.value, decoded))
    }

    constructor ()
      ensures Valid()
      ensures mask.None? && textureData == null && inscriptionPositions == map[]
      ensures timeUniform == 0.0 && hoveredUniform == 0
    {
      mask := None;
      textureData := null;
      decoded := [];
      inscriptionPositions := map[];
      timeUniform := 0.0;
      hoveredUniform := 0;
    }

    /**
     * `getInscriptionAtUV`: 0 without a decoded buffer or a mask texture, 0 off the image,
     * and otherwise the red byte of the decoded pixel under `(u, v)`.
     */
    function GetInscriptionAtUV(u: real, v: real): (id: int)
      requires Valid()
      reads this, textureData
      ensures textureData == null || mask.None? ==> id == 0
      ensures textureData != null && mask.Some? ==> id == RegionAt(mask.value, decoded, u, v)
      ensures 0 <= id < 256
    {
      if textureData == null || mask.None? then 0
      else
        var size := mask.value;
        match PixelAt(size, u, v)
        case None => 0
        case Some((x, y)) => textureData[PixelIndex(size, x, y)]
    }

    /** `setHoveredInscription`: writes the hovered uniform and nothing else. */
    method SetHoveredInscription(id: int)
      modifies this
      ensures hoveredUniform == id
      ensures mask == old(mask) && textureData == old(textureData) && decoded == old(decoded)
      ensures inscriptionPositions == old(inscriptionPositions) && timeUniform == old(timeUniform)
    {
      hoveredUniform := id;
    }

    /** `updateShaderUniforms`: writes the time uniform and nothing else. */
    method UpdateShaderUniforms(time: real)
      modifies this
      ensures timeUniform == time
      ensures mask == old(mask) && textureData == old(textureData) && decoded == old(decoded)
      ensures inscriptionPositions == old(inscriptionPositions) && hoveredUniform == old(hoveredUniform)
    {
      timeUniform := time;
    }

    /**
     * `extractInscriptionPositionsFromTexture`: keep the red channel of the decoded image and
     * compute the centroid of every region 1..40 that some sampled pixel carries.
     */
    method ExtractInscriptionPositionsFromTexture(size: Size, data: seq<int>)
      requires IsImage(size, data) && IsByteBuffer(data)
      modifies this
      ensures textureData != null && fresh(textureData) && textureData[..] == RedChannel(data)
      ensures decoded == data
      ensures inscriptionPositions == RegionCentroids(size, data)
      ensures mask == old(mask) && timeUniform == old(timeUniform) && hoveredUniform == old(hoveredUniform)
    {
      var red := CopyRedChannel(data);
      textureData := red;
      decoded := data;

      var positions: map<int, Vec2> := map[];
      var inscriptionId := MinInscriptionId;
      while inscriptionId <= MaxInscriptionId
        modifies {}
        invariant MinInscriptionId <= inscriptionId <= MaxInscriptionId + 1
        invariant forall id :: id in positions <==>
          MinInscriptionId <= id < inscriptionId && RegionTally(size, data, id).count > 0
        invariant forall id :: id in positions ==>
          id in RegionCentroids(size, data) && positions[id] == RegionCentroids(size, data)[id]
      {
        var tally := ScanRegion(size, data, inscriptionId);
        if tally.count > 0 {
          TallyNonEmpty(size, data, inscriptionId, 0);
          positions := positions[inscriptionId := Centroid(size, tally)];
        }
        inscriptionId := inscriptionId + 1;
      }
      inscriptionPositions := positions;
    }

    /** The loading step that installs the segmentation image: decode, extract, keep the texture. */
    method LoadSegmentationMap(size: Size, data: seq<int>)
      requires IsImage(size, data) && IsByteBuffer(data)
      modifies this
      ensures Valid() && mask == Some(size) && decoded == data
      ensures inscriptionPositions == RegionCentroids(size, data)
      ensures timeUniform == old(timeUniform) && hoveredUniform == old(hoveredUniform)
    {
      ExtractInscriptionPositionsFromTexture(size, data);
      mask := Some(size);
    }

    /**
     * `dispose`, for the state modelled here: the mask reference is dropped and the position
     * map emptied, so every later lookup returns 0.
     */
    method Dispose()
      requires Valid()
      modifies this
      ensures Valid() && mask.None? && inscriptionPositions == map[]
      ensures textureData == old(textureData) && decoded == old(decoded)
      ensures timeUniform == old(timeUniform) && hoveredUniform == old(hoveredUniform)
    {
      mask := None;
      inscriptionPositions := map[];
    }
  }

  /**
   * The red-channel copy of the extraction: a zeroed buffer of the same length, the red byte
   * of every pixel written into it.
   */
  method CopyRedChannel(data: seq<int>) returns (red: array<int>)
    ensures fresh(red) && red[..] == RedChannel(data)
  {
    red := new int[|data|](_ => 0);
    var i := 0;
    while i < |data|
      invariant 0 <= i && i % 4 == 0
      invariant forall k :: 0 <= k < red.Length ==> red[k] == (if k < i && k % 4 == 0 then data[k] else 0)
    {
      red[i] := data[i];
      i := i + 4;
    }
    assert red[..] == RedChannel(data);
  }

  /**
   * The per-region pass of the extraction: the nested sampled scan with its running sums
   * `found`, `totalX`, `totalY` and `pixelCount`.
   */
  method ScanRegion(size: Size, data: seq<int>, inscriptionId: int) returns (tally: Tally)
    requires IsImage(size, data)
    ensures tally == RegionTally(size, data, inscriptionId)
  {
    var found := false;
    var totalX := 0;
    var totalY := 0;
    var pixelCount: nat := 0;
    PlusNoPixels(RegionTally(size, data, inscriptionId));
    var y := 0;
    while y < size.height
      invariant 0 <= y
      invariant found == (pixelCount > 0)
      invariant Plus(Tally(pixelCount, totalX, totalY), GridTally(size, data, inscriptionId, y)) ==
        RegionTally(size, data, inscriptionId)
    {
      found, totalX, totalY, pixelCount := ScanRow(size, data, inscriptionId, y, found, totalX, totalY, pixelCount);
      assert GridTally(size, data, inscriptionId, y) ==
        Plus(RowTally(size, data, inscriptionId, y, 0), GridTally(size, data, inscriptionId, y + SampleStep));
      y := y + SampleStep;
    }
    assert GridTally(size, data, inscriptionId, y) == NoPixels;
    PlusNoPixels(Tally(pixelCount, totalX, totalY));
    if found && pixelCount > 0 {
      return Tally(pixelCount, totalX, totalY);
    }
    GridTallyBounds(size, data, inscriptionId, 0);
    return NoPixels;
  }

  /** One step along a row: pixel `(x, y)` counts when it carries `id`. */
  lemma RowStep(size: Size, data: seq<int>, id: int, y: nat, x: nat)
    requires IsImage(size, data) && y < size.height && x < size.width
    ensures RowTally(size, data, id, y, x) ==
      if data[PixelIndex(size, x, y)] == id then Plus(Tally(1, x, y), RowTally(size, data, id, y, x + SampleStep))
      else RowTally(size, data, id, y, x + SampleStep)
  {
    PlusNoPixels(RowTally(size, data, id, y, x + SampleStep));
  }

  /** One sampled row of `ScanRegion`: the inner loop over `x`, adding to the running sums. */
  method ScanRow(size: Size, data: seq<int>, inscriptionId: int, y: nat,
                 found0: bool, totalX0: int, totalY0: int, pixelCount0: nat)
    returns (found: bool, totalX: int, totalY: int, pixelCount: nat)
    requires IsImage(size, data) && y < size.height
    requires found0 == (pixelCount0 > 0)
    ensures found == (pixelCount > 0)
    ensures Tally(pixelCount, totalX, totalY) ==
      Plus(Tally(pixelCount0, totalX0, totalY0), RowTally(size, data, inscriptionId, y, 0))
  {
    found, totalX, totalY, pixelCount := found0, totalX0, totalY0, pixelCount0;
    ghost var goal := Plus(Tally(pixelCount0, totalX0, totalY0), RowTally(size, data, inscriptionId, y, 0));
    var x := 0;
    while x < size.width
      invariant 0 <= x
      invariant found == (pixelCount > 0)
      invariant pixelCount + RowTally(size, data, inscriptionId, y, x).count == goal.count
      invariant totalX + RowTally(size, data, inscriptionId, y, x).sumX == goal.sumX
      invariant totalY + RowTally(size, data, inscriptionId, y, x).sumY == goal.sumY
    {
      RowStep(size, data, inscriptionId, y, x);
      var r := data[PixelIndex(size, x, y)];
      if r == inscriptionId {
        found := true;
        totalX := totalX + x;
        totalY := totalY + y;
        pixelCount := pixelCount + 1;
      }
      x := x + SampleStep;
    }
  }
}
