/** Vertex layout, UV tables and the four-vertex shapes the quad batcher
    emits (engine/render2D.h). Everything here is a pure value; the batch
    object that writes these vertices lives in module Render2D. */
module QuadGeometry {
  import opened Textures

  /** An RGBA multiplier. Reals stand in for the source's `f32` channels. */
  datatype Color = Rgba(r: real, g: real, b: real, a: real)

  /** The `/ 255` that `draw_texture_EX` and `draw_rectangle` apply to their
      0-255 colour arguments, bringing them to the 0-1 multipliers that
      `draw_texture` takes directly. */
  function Scale255(c: Color): (s: Color)
    ensures 0.0 <= c.r <= 255.0 ==> 0.0 <= s.r <= 1.0
    ensures 0.0 <= c.g <= 255.0 ==> 0.0 <= s.g <= 1.0
    ensures 0.0 <= c.b <= 255.0 ==> 0.0 <= s.b <= 1.0
    ensures 0.0 <= c.a <= 255.0 ==> 0.0 <= s.a <= 1.0
    // full intensity is the white multiplier of the colourless overloads
    ensures c == Rgba(255.0, 255.0, 255.0, 255.0) ==> s == Rgba(1.0, 1.0, 1.0, 1.0)
  {
    Rgba(c.r / 255.0, c.g / 255.0, c.b / 255.0, c.a / 255.0)
  }

  datatype Point = Point(x: int, y: int)

  /** A vertex position: an axis-aligned corner, or a corner that is still to
      be rotated by `degrees` about the pivot `(px, py)`. */
  datatype Pos = At(p: Point) | Turned(p: Point, px: real, py: real, degrees: real)

  /** A texture coordinate: a 0/1 entry of one of the fixed UV tables, a
      texel coordinate of a source rectangle (normalised by the texture's
      width and height on the GPU side of the model), or a coordinate the
      source never initialises. */
  datatype TexCoord = Uv(u: int, v: int) | Texel(s: int, t: int) | Unset

  /** `VertexData`: position, colour, UV and texture slot (0 = untextured). */
  datatype Vertex = Vertex(pos: Pos, color: Color, uv: TexCoord, slot: nat)

  /** The screen or source rectangle of `draw_texture_EX`. */
  datatype Rect = Rect(x: int, y: int, width: int, height: int)

  /** The corner order every emitter uses: top-left, bottom-left,
      bottom-right, top-right (y grows downwards). */
  function Corners(x: int, y: int, w: int, h: int): (c: seq<Point>)
    ensures |c| == 4
  {
    [Point(x, y), Point(x, y + h), Point(x + w, y + h), Point(x + w, y)]
  }

  /** A 32-by-16 texture drawn at (10, 20). */
  lemma CornersExample()
    ensures Corners(10, 20, 32, 16) == [Point(10, 20), Point(10, 36), Point(42, 36), Point(42, 20)]
  {
  }

  /** Twice the signed area of the triangle a, b, c. */
  function Cross(a: Point, b: Point, c: Point): int {
    (b.x - a.x) * (c.y - a.y) - (b.y - a.y) * (c.x - a.x)
  }

  /** The six corner offsets of one quad in the element buffer: triangles
      (0, 1, 2) and (2, 3, 0). */
  const QuadPattern: seq<nat> := [0, 1, 2, 2, 3, 0]

  /** The two triangles the index pattern cuts a quad into have the same
      orientation, and each has half the area of the w-by-h quad. */
  lemma QuadWinding(x: int, y: int, w: int, h: int)
    ensures var c := Corners(x, y, w, h);
      && Cross(c[QuadPattern[0]], c[QuadPattern[1]], c[QuadPattern[2]]) == -(w * h)
      && Cross(c[QuadPattern[3]], c[QuadPattern[4]], c[QuadPattern[5]]) == -(w * h)
  {
  }

  /** The fixed UV tables of `draw_texture` and `draw_texture_rotated`. */
  const DefaultUvs: seq<TexCoord> := [Uv(0, 0), Uv(0, 1), Uv(1, 1), Uv(1, 0)]
  const FlipHorUvs: seq<TexCoord> := [Uv(1, 1), Uv(1, 0), Uv(0, 0), Uv(0, 1)]
  const FlipVerUvs: seq<TexCoord> := [Uv(0, 1), Uv(0, 0), Uv(1, 0), Uv(1, 1)]
  const FlipBothUvs: seq<TexCoord> := [Uv(1, 0), Uv(1, 1), Uv(0, 1), Uv(0, 0)]

  /** The table selection of `draw_texture` and `draw_texture_rotated`: three
      `if`s in a row, so the last test that matches wins. */
  function FlipUvs(flag: bv64): (uvs: seq<TexCoord>)
    ensures VerticalBit(flag) ==> uvs == FlipVerUvs
    ensures HorizontalBit(flag) && !VerticalBit(flag) ==> uvs == FlipHorUvs
    ensures !HorizontalBit(flag) && !VerticalBit(flag) ==> uvs == DefaultUvs
    ensures uvs != FlipBothUvs
  {
    var uvs := DefaultUvs;
    var uvs := if HorizontalBit(flag) && VerticalBit(flag) then FlipBothUvs else uvs;
    var uvs := if HorizontalBit(flag) then FlipHorUvs else uvs;
    if VerticalBit(flag) then FlipVerUvs else uvs
  }

  /** A 0/1 table entry mirrored in u and/or v. */
  function Mirror(c: TexCoord, inU: bool, inV: bool): TexCoord {
    match c
    case Uv(u, v) => Uv(if inU then 1 - u else u, if inV then 1 - v else v)
    case _ => c
  }

  /** What each table does to the unflipped one: the "horizontal" table
      mirrors both axes and the "both" table only u, so a texture flagged
      horizontal alone is drawn upside down as well. */
  lemma FlipTablesMirror(k: nat)
    requires k < 4
    ensures FlipHorUvs[k] == Mirror(DefaultUvs[k], true, true)
    ensures FlipVerUvs[k] == Mirror(DefaultUvs[k], false, true)
    ensures FlipBothUvs[k] == Mirror(DefaultUvs[k], true, false)
  {
  }

  /** The UV choice of `draw_texture_EX`, in texel coordinates of `src`: an
      `if`/`else if` chain on the flag word. The fourth branch (both bits) is
      dead, since a word with both bits already took the second; a non-zero
      word with neither bit leaves the coordinates uninitialised. */
  function ExUvs(flag: bv64, src: Rect): (uvs: seq<TexCoord>)
    ensures |uvs| == 4
  {
    var x0, y0, x1, y1 := src.x, src.y, src.x + src.width, src.y + src.height;
    if flag == 0 then
      [Texel(x0, y0), Texel(x0, y1), Texel(x1, y1), Texel(x1, y0)]
    else if HorizontalBit(flag) then
      [Texel(x1, y0), Texel(x1, y1), Texel(x0, y1), Texel(x0, y0)]
    else if VerticalBit(flag) then
      [Texel(x0, y1), Texel(x0, y0), Texel(x1, y0), Texel(x1, y1)]
    else if HorizontalBit(flag) && VerticalBit(flag) then
      [Texel(x1, y1), Texel(x1, y0), Texel(x0, y0), Texel(x0, y1)]
    else
      [Unset, Unset, Unset, Unset]
  }

  /** A texel coordinate mirrored inside the source rectangle. */
  function MirrorIn(c: TexCoord, src: Rect, inU: bool, inV: bool): TexCoord {
    match c
    case Texel(s, t) =>
      Texel(if inU then 2 * src.x + src.width - s else s,
            if inV then 2 * src.y + src.height - t else t)
    case _ => c
  }

  /** Unlike the fixed tables, the EX variant flips exactly the axes it is
      asked to, except that a word with both bits is treated as horizontal
      alone (the "both" branch is never reached); any other non-zero word
      leaves the UVs unset. */
  lemma ExUvsFlips(flag: bv64, src: Rect, k: nat)
    requires k < 4
    ensures flag != 0 && HorizontalBit(flag) ==> ExUvs(flag, src)[k] == MirrorIn(ExUvs(0, src)[k], src, true, false)
    ensures flag != 0 && !HorizontalBit(flag) && VerticalBit(flag) ==>
      ExUvs(flag, src)[k] == MirrorIn(ExUvs(0, src)[k], src, false, true)
    ensures flag != 0 && !HorizontalBit(flag) && !VerticalBit(flag) ==> ExUvs(flag, src)[k] == Unset
    ensures HorizontalBit(flag) && VerticalBit(flag) ==> ExUvs(flag, src) == ExUvs(FlipHorizontal, src)
  {
  }

  /** A 0/1 table entry scaled to the texels of a w-by-h texture. */
  function ToTexel(c: TexCoord, w: int, h: int): TexCoord {
    match c
    case Uv(u, v) => Texel(u * w, v * h)
    case _ => c
  }

  /** Over the whole texture, EX under the horizontal bit samples what the
      "both" table names, not the "horizontal" one `draw_texture` uses: the
      two emitters flip the same texture differently. */
  lemma ExWholeTextureMatchesTables(flag: bv64, w: int, h: int, k: nat)
    requires k < 4
    ensures flag == 0 ==> ExUvs(flag, Rect(0, 0, w, h))[k] == ToTexel(DefaultUvs[k], w, h)
    ensures flag != 0 && HorizontalBit(flag) ==> ExUvs(flag, Rect(0, 0, w, h))[k] == ToTexel(FlipBothUvs[k], w, h)
    ensures flag != 0 && !HorizontalBit(flag) && VerticalBit(flag) ==>
      ExUvs(flag, Rect(0, 0, w, h))[k] == ToTexel(FlipVerUvs[k], w, h)
  {
  }

  /** Four vertices sharing one colour and one slot. */
  function Quad(corners: seq<Pos>, color: Color, uvs: seq<TexCoord>, slot: nat): (q: seq<Vertex>)
    requires |corners| == 4 && |uvs| == 4
    ensures |q| == 4
    ensures forall k :: 0 <= k < 4 ==> q[k].color == color && q[k].slot == slot
  {
    seq(4, k requires 0 <= k < 4 => Vertex(corners[k], color, uvs[k], slot))
  }

  function Placed(c: seq<Point>): (ps: seq<Pos>)
    ensures |ps| == |c|
  {
    seq(|c|, k requires 0 <= k < |c| => At(c[k]))
  }

  /** The quad `draw_texture` writes: the texture's own size at (x, y). */
  function TextureQuad(tex: Texture, x: int, y: int, color: Color, slot: nat): seq<Vertex> {
    Quad(Placed(Corners(x, y, tex.width, tex.height)), color, FlipUvs(tex.flipFlag), slot)
  }

  /** The quad `draw_texture_rotated` writes: the corners of the unrotated
      quad, each to be turned about the pivot; with no rotation the source's
      cosine and sine are 1 and 0 and the corners stay put. */
  function RotatedQuad(tex: Texture, x: int, y: int, px: real, py: real, degrees: real,
                       color: Color, slot: nat): seq<Vertex>
  {
    var c := Corners(x, y, tex.width, tex.height);
    var ps := if degrees == 0.0 then Placed(c)
              else seq(4, k requires 0 <= k < 4 => Turned(c[k], px, py, degrees));
    Quad(ps, color, FlipUvs(tex.flipFlag), slot)
  }

  /** The quad `draw_texture_EX` writes: `dest` on screen, `src` in texels. */
  function ExQuad(tex: Texture, src: Rect, dest: Rect, color: Color, slot: nat): seq<Vertex> {
    Quad(Placed(Corners(dest.x, dest.y, dest.width, dest.height)), Scale255(color),
         ExUvs(tex.flipFlag, src), slot)
  }

  /** The quad `draw_rectangle` writes: untextured, UV (0, 0). */
  function RectangleQuad(x: int, y: int, w: int, h: int, color: Color): seq<Vertex> {
    Quad(Placed(Corners(x, y, w, h)), Scale255(color), [Uv(0, 0), Uv(0, 0), Uv(0, 0), Uv(0, 0)], 0)
  }

  /** The conversion of an `int` index value to `GLushort`. */
  function GLushort(v: int): int {
    v % 0x1_0000
  }

  /** What `create_quad_batch` stores at element j: corner `QuadPattern[j % 6]`
      of quad j / 6, truncated to 16 bits. */
  function IndexValue(j: nat): int {
    GLushort(4 * (j / 6) + QuadPattern[j % 6])
  }
}
