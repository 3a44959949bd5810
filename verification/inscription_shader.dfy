/**
 * The per-fragment logic of the liver highlight shader: the region id decoded from the
 * mask's red channel, the id-to-colour palette, the eight-neighbour border test, and the
 * gates that decide whether the border tint and the hover effect apply.
 *
 * Two copies of the shader exist and differ only in their palette:
 * `LiverInscriptionShader.ts` has one colour per cosmological group (`GroupPalette`),
 * `liverInscriptionShader.ts`, the copy the model loader compiles, has an older six-range
 * palette (`LegacyPalette`).
 *
 * A texture is a function from texture coordinates to the red channel in [0, 1]; `sin` of
 * the time uniform enters as the three values the shader computes from it.
 */
module InscriptionShader {
  import opened Vectors
  import opened LiverData

  datatype Palette = GroupPalette | LegacyPalette

  const White := Vec3(1.0, 1.0, 1.0)

  /** `getInscriptionColor` of the group-keyed palette: one colour per group range. */
  function GroupPaletteColor(id: int): Vec3
  {
    if 1 <= id <= 4 then Vec3(0.529, 0.808, 0.922)
    else if 5 <= id <= 8 then Vec3(0.0, 0.545, 0.545)
    else if 9 <= id <= 12 then Vec3(0.804, 0.522, 0.247)
    else if 13 <= id <= 16 then Vec3(0.502, 0.502, 0.0)
    else if 17 <= id <= 24 then Vec3(1.0, 0.0, 0.0)
    else if 25 <= id <= 28 then Vec3(1.0, 0.549, 0.0)
    else if 29 <= id <= 32 then Vec3(1.0, 0.647, 0.0)
    else if 33 <= id <= 38 then Vec3(0.576, 0.439, 0.859)
    else if 39 <= id <= 40 then Vec3(0.502, 0.502, 0.502)
    else White
  }

  /** `getInscriptionColor` of the legacy palette: six ranges covering 1..22 only. */
  function LegacyPaletteColor(id: int): Vec3
  {
    if 1 <= id <= 4 then Vec3(0.5, 0.8, 1.0)
    else if 5 <= id <= 8 then Vec3(0.0, 0.8, 0.8)
    else if 9 <= id <= 12 then Vec3(0.6, 0.4, 0.2)
    else if 13 <= id <= 16 then Vec3(0.5, 0.5, 0.0)
    else if 17 <= id <= 20 then Vec3(1.0, 0.2, 0.2)
    else if 21 <= id <= 22 then Vec3(0.2, 0.8, 0.6)
    else White
  }

  function InscriptionColor(p: Palette, id: int): (c: Vec3)
    ensures !IsInscriptionId(id) ==> c == White
    ensures p == GroupPalette && IsInscriptionId(id) ==> c != White
    ensures p == LegacyPalette ==> (c == White <==> !(1 <= id <= 22))
  {
    match p
    case GroupPalette => GroupPaletteColor(id)
    case LegacyPalette => LegacyPaletteColor(id)
  }

  /** Each channel of `c` is the 8-bit channel of `rgb` over 255, to three decimals. */
  predicate Approximates(c: Vec3, rgb: Rgb)
  {
    var r := rgb.r as real / 255.0;
    var g := rgb.g as real / 255.0;
    var b := rgb.b as real / 255.0;
    -0.0005 <= c.x - r <= 0.0005 && -0.0005 <= c.y - g <= 0.0005 && -0.0005 <= c.z - b <= 0.0005
  }

  /**
   * The group palette agrees with the inscription table: an id is drawn in the colour
   * key of the group that lists it.
   */
  lemma GroupPaletteFollowsGroups(id: int)
    requires IsInscriptionId(id)
    ensures Approximates(GroupPaletteColor(id), GroupColor(GroupOf(id)))
  {
  }

  /** Under the group palette two ids share a colour exactly when they share a group. */
  lemma GroupPaletteSeparatesGroups(i: int, j: int)
    requires IsInscriptionId(i) && IsInscriptionId(j)
    ensures GroupPaletteColor(i) == GroupPaletteColor(j) <==> GroupOf(i) == GroupOf(j)
  {
  }

  /**
   * The legacy palette, which is the one compiled into the liver material, leaves ids
   * 23..40 white, gives two members of the pars familiaris group different colours, and
   * gives the gall bladder and the pars hostilis the same colour.
   */
  lemma LegacyPaletteLosesGroups()
    ensures forall id :: 23 <= id <= 40 ==> LegacyPaletteColor(id) == White
    ensures GroupOf(17) == GroupOf(21) && LegacyPaletteColor(17) != LegacyPaletteColor(21)
    ensures GroupOf(25) != GroupOf(33) && LegacyPaletteColor(25) == LegacyPaletteColor(33)
  {
  }

  /** GLSL `int(x)`: truncation toward zero. */
  function TruncToInt(x: real): (n: int)
    ensures 0.0 <= x ==> n as real <= x < n as real + 1.0
    ensures x < 0.0 ==> n as real - 1.0 < x <= n as real
  {
    if x >= 0.0 then x.Floor else -((-x).Floor)
  }

  /** `int(r * 255.0 + 0.5)`: the region id a red-channel value stands for. */
  function DecodeId(r: real): (id: int)
    ensures 0.0 <= r ==> 0 <= id && id as real - 0.5 <= r * 255.0 < id as real + 0.5
  {
    TruncToInt(r * 255.0 + 0.5)
  }

  /** Decoding rounds: any red value within half a step of `b / 255` decodes to `b`. */
  lemma DecodeRounds(b: int, r: real)
    requires 0.0 <= r
    requires -0.5 <= r * 255.0 - b as real < 0.5
    ensures DecodeId(r) == b
  {
    var id := DecodeId(r);
    assert id as real - 0.5 <= r * 255.0 < id as real + 0.5;
  }

  /** A stored byte `b` read back as `b / 255` decodes to `b`. */
  lemma DecodeRoundTrip(b: int)
    requires 0 <= b <= 255
    ensures DecodeId(b as real / 255.0) == b
  {
    DecodeRounds(b, b as real / 255.0);
  }

  /** The mask's red channel at `uv`, read with the vertical flip and scaled to 0..255. */
  function MaskAt(mask: Vec2 -> real, uv: Vec2): real
  {
    mask(Vec2(uv.x, 1.0 - uv.y)) * 255.0
  }

  /** The neighbour steps in sampling order: top-left, top, top-right, left, right, bottom-left, bottom, bottom-right. */
  const NeighbourSteps: seq<(int, int)> :=
    [(-1, -1), (0, -1), (1, -1), (-1, 0), (1, 0), (-1, 1), (0, 1), (1, 1)]

  function Neighbours(mask: Vec2 -> real, uv: Vec2, pixelSize: real): seq<real>
  {
    seq(8, k requires 0 <= k < 8 =>
      MaskAt(mask, Vec2(uv.x + NeighbourSteps[k].0 as real * pixelSize,
                        uv.y + NeighbourSteps[k].1 as real * pixelSize)))
  }

  predicate Differs(a: real, b: real)
  {
    a - b > 0.5 || b - a > 0.5
  }

  /** The loop of `detectBorder` from position `i` on: 1 at the first differing neighbour. */
  function BorderFrom(ns: seq<real>, centre: real, i: nat): (strength: real)
    requires i <= |ns|
    decreases |ns| - i
    ensures strength == 0.0 || strength == 1.0
    ensures strength == 1.0 <==> exists k :: i <= k < |ns| && Differs(ns[k], centre)
  {
    if i == |ns| then 0.0
    else if Differs(ns[i], centre) then 1.0
    else BorderFrom(ns, centre, i + 1)
  }

  /** `detectBorder`: 1 when one of the eight neighbours is another region, else 0. */
  function DetectBorder(mask: Vec2 -> real, uv: Vec2, pixelSize: real): (strength: real)
    ensures strength == 0.0 || strength == 1.0
    ensures strength == 1.0 <==>
      exists k :: 0 <= k < 8 && Differs(Neighbours(mask, uv, pixelSize)[k], MaskAt(mask, uv))
  {
    BorderFrom(Neighbours(mask, uv, pixelSize), MaskAt(mask, uv), 0)
  }

  /** The pixel size the shader assumes: one texel of a 2048-wide mask. */
  const PixelSize: real := 1.0 / 2048.0

  /** The blend weight of the border tint, `strength * (sin(3t) * 0.3 + 0.7) * 0.18`. */
  function BorderWeight(strength: real, sinGlow: real): (w: real)
    ensures strength == 0.0 ==> w == 0.0
    ensures strength == 1.0 && -1.0 <= sinGlow <= 1.0 ==> 0.072 <= w <= 0.18
  {
    strength * (sinGlow * 0.3 + 0.7) * 0.18
  }

  /** The blend weight of the hover shimmer, `(sin(8t) * 0.3 + 0.7) * 0.21`. */
  function ShimmerWeight(sinShimmer: real): (w: real)
    ensures -1.0 <= sinShimmer <= 1.0 ==> 0.084 <= w <= 0.21
  {
    (sinShimmer * 0.3 + 0.7) * 0.21
  }

  /** GLSL `mix(a, b, t)` on colours. */
  function Mix(a: Vec3, b: Vec3, t: real): Vec3
  {
    Add3(Scale3(a, 1.0 - t), Scale3(b, t))
  }

  datatype Fragment = Fragment(rgb: Vec3, alpha: real)

  /** `sin(3t)`, `sin(8t)` and `sin(4t)` of the time uniform `t`. */
  datatype Waves = Waves(sinGlow: real, sinShimmer: real, sinPulse: real)

  predicate BorderGate(strength: real, id: int)
  {
    strength > 0.0 && 0 < id <= 40
  }

  predicate HoverGate(id: int, hovered: int)
  {
    0 < id <= 40 && id == hovered
  }

  /** The region id of the fragment at `uv`. */
  function FragmentId(mask: Vec2 -> real, uv: Vec2): int
  {
    DecodeId(mask(Vec2(uv.x, 1.0 - uv.y)))
  }

  function BorderTint(p: Palette, c: Vec3, id: int, strength: real, w: Waves): Vec3
  {
    var borderColor := Mix(InscriptionColor(p, id), White, 0.3);
    Mix(c, borderColor, BorderWeight(strength, w.sinGlow))
  }

  function HoverTint(p: Palette, c: Vec3, id: int, w: Waves): Vec3
  {
    var groupColor := InscriptionColor(p, id);
    var shimmered := Mix(c, Mix(groupColor, White, 0.5), ShimmerWeight(w.sinShimmer));
    var pulsed := Mix(shimmered, Scale3(shimmered, w.sinPulse * 0.2 + 0.8), 0.3);
    var overlaid := Mix(pulsed, groupColor, 0.12);
    Mix(overlaid, Scale3(groupColor, 1.5), 0.18)
  }

  /** `main`: the diffuse colour, tinted at region borders and on the hovered region. */
  function Shade(p: Palette, diffuse: Fragment, mask: Vec2 -> real, uv: Vec2, hovered: int, w: Waves): (out: Fragment)
    ensures out.alpha == diffuse.alpha
    ensures (!BorderGate(DetectBorder(mask, uv, PixelSize), FragmentId(mask, uv)) &&
             !HoverGate(FragmentId(mask, uv), hovered)) ==> out.rgb == diffuse.rgb
  {
    var id := FragmentId(mask, uv);
    var strength := DetectBorder(mask, uv, PixelSize);
    var bordered := if BorderGate(strength, id) then BorderTint(p, diffuse.rgb, id, strength, w) else diffuse.rgb;
    var lit := if HoverGate(id, hovered) then HoverTint(p, bordered, id, w) else bordered;
    Fragment(lit, diffuse.alpha)
  }

  /**
   * The hovered id matters only to the fragments of that region: two hovered values that
   * both miss the fragment's id shade it alike, so a hovered value of 0 highlights nothing.
   */
  lemma HoverOnlyOnHoveredRegion(p: Palette, diffuse: Fragment, mask: Vec2 -> real, uv: Vec2, h1: int, h2: int, w: Waves)
    requires !HoverGate(FragmentId(mask, uv), h1) && !HoverGate(FragmentId(mask, uv), h2)
    ensures Shade(p, diffuse, mask, uv, h1, w) == Shade(p, diffuse, mask, uv, h2, w)
  {
  }

  /** No hovered value reaches a fragment outside the regions 1..40. */
  lemma HoverNeedsRegion(id: int, hovered: int)
    ensures !IsInscriptionId(hovered) ==> !HoverGate(id, hovered)
    ensures !IsInscriptionId(id) ==> !HoverGate(id, hovered)
  {
  }
}
