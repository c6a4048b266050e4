/** The 2D quad batcher of engine/render2D.h: one object that owns a vertex
    store, a static element buffer, a table of up to 32 texture names and
    the counters of the current begin/end cycle. GL calls are modelled by
    their effect on this state: mapping the vertex store restarts the write
    cursor, and the one `glDrawElements` of a cycle is recorded as a
    `DrawCall` in a ghost log. */
module Render2D {
  import opened Textures
  import opened QuadGeometry
  import opened TextureSlots

  /** `BATCH_MAX_SPRITES` and the sizes derived from it. */
  const MaxSprites: nat := 20000
  const MaxVertices: nat := MaxSprites * 4
  const MaxIndices: nat := MaxSprites * 6

  /** `indexcount` and `texcount` are `u16`; index values are `GLushort`. */
  const U16Range: nat := 0x1_0000

  /** One `glDrawElements`: how many elements it draws, the texture bound to
      each unit from `GL_TEXTURE0` on, and the vertices written this cycle. */
  datatype DrawCall = DrawCall(count: nat, units: seq<nat>, vertices: seq<Vertex>)

  /** The index loop of `create_quad_batch`: six elements per quad, the
      write position advancing by 6 and the vertex offset by 4. */
  method FillIndexPattern(indices: array<int>)
    requires indices.Length == MaxIndices
    modifies indices
    ensures forall j :: 0 <= j < MaxIndices ==> indices[j] == IndexValue(j)
  {
    var offset := 0;
    var i := 0;
    ghost var quad := 0;
    while i < MaxIndices
      invariant i == 6 * quad && offset == 4 * quad && i <= MaxIndices
      invariant forall j :: 0 <= j < i ==> indices[j] == IndexValue(j)
    {
      indices[i] := GLushort(offset + 0);
      indices[i + 1] := GLushort(offset + 1);
      indices[i + 2] := GLushort(offset + 2);
      indices[i + 3] := GLushort(offset + 2);
      indices[i + 4] := GLushort(offset + 3);
      indices[i + 5] := GLushort(offset + 0);
      offset := offset + 4;
      i := i + 6;
      quad := quad + 1;
    }
  }

  /** Quad i owns elements 6i..6i+5, which name its vertices 4i+0, 4i+1,
      4i+2, 4i+2, 4i+3, 4i+0 -- exactly, for the first 16384 quads; past
      them the `GLushort` store wraps to 16 bits. */
  lemma IndexPatternPerQuad(i: nat, k: nat)
    requires i < MaxSprites && k < 6
    ensures IndexValue(6 * i + k) == (4 * i + QuadPattern[k]) % U16Range
    ensures IndexValue(6 * i + k) == 4 * i + QuadPattern[k] <==> i < 16384
  {
    assert (6 * i + k) / 6 == i && (6 * i + k) % 6 == k;
  }

  /** With `cursor` vertices written, the `u16` index count equals six per
      quad exactly when at most 10922 quads were written; the 10923rd quad
      wraps it (to 2), though the vertex store holds 20000. */
  lemma IndexCountExact(cursor: nat)
    requires cursor % 4 == 0 && cursor <= MaxVertices
    ensures (cursor / 4 * 6) % U16Range == cursor / 4 * 6 <==> cursor / 4 <= 10922
    ensures cursor / 4 == 10923 ==> (cursor / 4 * 6) % U16Range == 2
  {
  }

  /** Every element a draw of the `u16` count reads names a vertex written
      this cycle, of its own quad, and its value was stored without
      truncation. */
  lemma DrawnIndicesInBounds(cursor: nat, j: nat)
    requires cursor % 4 == 0 && cursor <= MaxVertices
    requires j < (cursor / 4 * 6) % U16Range
    ensures IndexValue(j) == 4 * (j / 6) + QuadPattern[j % 6]
    ensures IndexValue(j) < cursor && IndexValue(j) / 4 == j / 6
  {
    var q := cursor / 4;
    assert j < q * 6;
    assert j / 6 < q;
    assert j / 6 <= 10922;
  }

  /** `rgba_to_u32`: the four channels, as the bits of their `i32`
      arguments, packed as r | g << 8 | b << 16 | a << 24. Each channel in
      0..255 can be read back from its own byte. */
  function RgbaToU32(r: bv32, g: bv32, b: bv32, a: bv32): (c: bv32)
    ensures r < 256 && g < 256 && b < 256 && a < 256 ==>
      && c & 0xFF == r && (c >> 8) & 0xFF == g
      && (c >> 16) & 0xFF == b && c >> 24 == a
  {
    (a << 24) | (b << 16) | (g << 8) | r
  }

  /** For channels in 0..255 the bytes do not overlap, so the packed word is
      also the sum r + 256 g + 65536 b + 16777216 a (with no carry). */
  lemma RgbaToU32Value(r: bv32, g: bv32, b: bv32, a: bv32)
    requires r < 256 && g < 256 && b < 256 && a < 256
    ensures RgbaToU32(r, g, b, a) == r + 0x100 * g + 0x1_0000 * b + 0x100_0000 * a
  {
  }

  /** `QuadBatch`. The mapped `buffer` pointer is `cursor`, an offset into
      `vertices`; `mapped` says whether a begin/end bracket is open. */
  class QuadBatch {
    const vertices: array<Vertex>
    const indices: array<int>
    const textures: array<nat>
    var cursor: nat
    var indexCount: nat
    var texCount: nat
    var mapped: bool
    var blending: bool
    var depthTest: bool
    ghost var draws: seq<DrawCall>

    /** The element buffer keeps its pattern; the texture table is bounded
        and duplicate-free; while mapped, the `u16` index count is six per
        written quad (mod 2^16) and every written vertex names slot 0 or an
        entry of the table; outside a bracket both counters are 0. */
    ghost predicate Valid()
      reads this, vertices, indices, textures
    {
      && vertices.Length == MaxVertices
      && indices.Length == MaxIndices
      && textures.Length == MaxTextures
      && (forall j :: 0 <= j < MaxIndices ==> indices[j] == IndexValue(j))
      && texCount <= MaxTextures
      && Distinct(textures[..texCount])
      && cursor <= MaxVertices && cursor % 4 == 0
      && (mapped ==> indexCount == (cursor / 4 * 6) % U16Range)
      && (mapped ==> forall k :: 0 <= k < cursor ==> vertices[k].slot <= texCount)
      && (!mapped ==> indexCount == 0 && texCount == 0)
    }

    /** The texture table; entry i is the texture of slot i + 1. */
    function Table(): seq<nat>
      reads this, textures
      requires texCount <= textures.Length
    {
      textures[..texCount]
    }

    /** The vertices written in the open bracket. */
    ghost function Queued(): seq<Vertex>
      reads this, vertices
      requires cursor <= vertices.Length
    {
      if mapped then vertices[..cursor] else []
    }

    /** The draw that ending the bracket now would issue. */
    ghost function Pending(): DrawCall
      reads this, vertices, textures
      requires cursor <= vertices.Length && texCount <= textures.Length
    {
      DrawCall(indexCount, Table(), Queued())
    }

    /** The source writes four vertices without looking at the capacity:
        there must be room, unless the submission of `id` flushes first. */
    predicate HasRoom(id: nat)
      reads this, textures
      requires texCount <= textures.Length
    {
      cursor + 4 <= MaxVertices || (id !in Table() && texCount >= MaxTextures)
    }

    /** The state after a textured emitter resolved its texture to `r` and
        wrote `q`: a flush, if there was one, drew everything before. */
    twostate predicate QueuedAfterSubmit(r: Resolution, q: seq<Vertex>)
      reads this, vertices, textures
      requires cursor <= vertices.Length && texCount <= textures.Length
      requires old(cursor <= vertices.Length && texCount <= textures.Length)
    {
      var start := if r.flushed then 0 else old(cursor);
      && Table() == r.table
      && cursor == start + 4
      && Queued() == (if r.flushed then [] else old(Queued())) + q
      && (forall k :: 0 <= k < vertices.Length && !(start <= k < start + 4) ==>
            vertices[k] == old(vertices[k]))
      && indexCount == ((if r.flushed then 0 else old(indexCount)) + 6) % U16Range
      && draws == old(draws) + (if r.flushed then [old(Pending())] else [])
      && blending == (r.flushed || old(blending))
      && depthTest == (!r.flushed && old(depthTest))
    }

    /** `create_quad_batch`: empty counters, no bracket open, the static
        element pattern in place. */
    constructor ()
      ensures Valid() && fresh(vertices) && fresh(indices) && fresh(textures)
      ensures !mapped && cursor == 0 && indexCount == 0 && Table() == [] && draws == []
      ensures forall j :: 0 <= j < MaxIndices ==> indices[j] == IndexValue(j)
    {
      var pattern := new int[MaxIndices];
      FillIndexPattern(pattern);
      vertices := new Vertex[MaxVertices];
      indices := pattern;
      textures := new nat[MaxTextures];
      cursor, indexCount, texCount := 0, 0, 0;
      mapped, blending, depthTest := false, false, false;
      draws := [];
    }

    /** `bind_quad_batch`: sets the blend and depth flags and maps the vertex
        store afresh, so writing restarts at its first vertex. */
    method Bind(blend: bool, depth: bool)
      requires Valid() && !mapped
      modifies this
      ensures Valid() && mapped && cursor == 0 && Queued() == []
      ensures blending == blend && depthTest == depth
      ensures indexCount == 0 && Table() == [] && draws == old(draws)
    {
      blending, depthTest := blend, depth;
      mapped := true;
      cursor := 0;
    }

    /** `unbind_quad_batch`: binds table entry i to texture unit i, issues
        one draw of the queued index count, and empties the counters. */
    method Unbind()
      requires Valid()
      modifies this
      ensures Valid() && !mapped && indexCount == 0 && Table() == []
      ensures draws == old(draws) + [old(Pending())]
      ensures cursor == old(cursor) && blending == old(blending) && depthTest == old(depthTest)
      ensures forall j :: 0 <= j < old(indexCount) ==>
        indices[j] < |old(Queued())| && indices[j] / 4 == j / 6
    {
      var units: seq<nat> := [];
      var i := 0;
      while i < texCount
        invariant i <= texCount
        invariant units == textures[..i]
      {
        units := units + [textures[i]];
        i := i + 1;
      }
      forall j | 0 <= j < indexCount
        ensures indices[j] < |Queued()| && indices[j] / 4 == j / 6
      {
        DrawnIndicesInBounds(cursor, j);
      }
      draws := draws + [DrawCall(indexCount, units, Queued())];
      indexCount, texCount, mapped := 0, 0, false;
    }

    /** `submit_tex`: search the table; append a new texture, flushing and
        re-binding with the default flags (blending on, depth test off)
        when the table is full. */
    method SubmitTex(id: nat) returns (slot: nat)
      requires Valid() && mapped
      modifies this, textures
      ensures Valid() && mapped
      ensures var r := Resolve(old(Table()), id);
        && slot == r.slot && Table() == r.table
        && draws == old(draws) + (if r.flushed then [old(Pending())] else [])
        && (if r.flushed then cursor == 0 && indexCount == 0 && blending && !depthTest
            else (cursor == old(cursor) && indexCount == old(indexCount)
                  && blending == old(blending) && depthTest == old(depthTest)))
    {
      ghost var table := Table();
      slot := 0;
      var found := false;
      var i := 0;
      while i < texCount
        invariant i <= texCount && !found
        invariant forall k :: 0 <= k < i ==> textures[k] != id
      {
        if textures[i] == id {
          slot := i + 1;
          found := true;
          break;
        }
        i := i + 1;
      }
      if !found {
        if texCount >= MaxTextures {
          Unbind();
          Bind(true, false);
        }
        textures[texCount] := id;
        texCount := texCount + 1;
        slot := texCount;
      }
      ResolveKeepsDistinct(table, id);
    }

    /** The four writes and the `indexcount += 6` every emitter ends with. */
    method EmitQuad(q: seq<Vertex>)
      requires Valid() && mapped && |q| == 4 && cursor + 4 <= MaxVertices
      requires forall k :: 0 <= k < 4 ==> q[k].slot <= texCount
      modifies this`cursor, this`indexCount, vertices
      ensures Valid() && mapped
      ensures Queued() == old(Queued()) + q
      ensures cursor == old(cursor) + 4 && indexCount == (old(indexCount) + 6) % U16Range
      ensures forall k :: 0 <= k < MaxVertices && !(old(cursor) <= k < old(cursor) + 4) ==>
        vertices[k] == old(vertices[k])
    {
      ghost var quads := cursor / 4;
      vertices[cursor] := q[0];
      cursor := cursor + 1;
      vertices[cursor] := q[1];
      cursor := cursor + 1;
      vertices[cursor] := q[2];
      cursor := cursor + 1;
      vertices[cursor] := q[3];
      cursor := cursor + 1;
      indexCount := (indexCount + 6) % U16Range;
      assert cursor / 4 * 6 == quads * 6 + 6;
      assert vertices[..cursor] == old(vertices[..cursor]) + q;
    }

    /** `draw_texture`: the texture at its own size at (x, y). The null
        texture changes nothing. */
    method DrawTexture(tex: Texture, x: int, y: int, color: Color)
      requires Valid() && mapped
      requires tex.id != 0 ==> HasRoom(tex.id)
      modifies this, vertices, textures
      ensures Valid() && mapped
      ensures tex.id == 0 ==> unchanged(this) && unchanged(vertices) && unchanged(textures)
      ensures tex.id != 0 ==>
        var r := Resolve(old(Table()), tex.id);
        QueuedAfterSubmit(r, TextureQuad(tex, x, y, color, r.slot))
    {
      if tex.id == 0 {
        return;
      }
      var slot := SubmitTex(tex.id);
      EmitQuad(TextureQuad(tex, x, y, color, slot));
    }

    /** `draw_texture_rotated`: as `DrawTexture`, with each corner to be
        turned by `degrees` about the pivot (px, py). */
    method DrawTextureRotated(tex: Texture, x: int, y: int, px: real, py: real, degrees: real, color: Color)
      requires Valid() && mapped
      requires tex.id != 0 ==> HasRoom(tex.id)
      modifies this, vertices, textures
      ensures Valid() && mapped
      ensures tex.id == 0 ==> unchanged(this) && unchanged(vertices) && unchanged(textures)
      ensures tex.id != 0 ==>
        var r := Resolve(old(Table()), tex.id);
        QueuedAfterSubmit(r, RotatedQuad(tex, x, y, px, py, degrees, color, r.slot))
    {
      if tex.id == 0 {
        return;
      }
      var slot := SubmitTex(tex.id);
      EmitQuad(RotatedQuad(tex, x, y, px, py, degrees, color, slot));
    }

    /** The `draw_texture_rotated` overload that turns the quad about its
        own centre. */
    method DrawTextureRotatedCentered(tex: Texture, x: int, y: int, degrees: real, color: Color)
      requires Valid() && mapped
      requires tex.id != 0 ==> HasRoom(tex.id)
      modifies this, vertices, textures
      ensures Valid() && mapped
      ensures tex.id == 0 ==> unchanged(this) && unchanged(vertices) && unchanged(textures)
      ensures tex.id != 0 ==>
        var r := Resolve(old(Table()), tex.id);
        var px, py := x as real + tex.width as real / 2.0, y as real + tex.height as real / 2.0;
        QueuedAfterSubmit(r, RotatedQuad(tex, x, y, px, py, degrees, color, r.slot))
    {
      DrawTextureRotated(tex, x, y, x as real + tex.width as real / 2.0,
                         y as real + tex.height as real / 2.0, degrees, color);
    }

    /** `draw_texture_EX`: the source rectangle `src` of the texture onto
        the screen rectangle `dest`, with a 0-255 colour. */
    method DrawTextureEx(tex: Texture, src: Rect, dest: Rect, color: Color)
      requires Valid() && mapped
      requires tex.id != 0 ==> HasRoom(tex.id)
      modifies this, vertices, textures
      ensures Valid() && mapped
      ensures tex.id == 0 ==> unchanged(this) && unchanged(vertices) && unchanged(textures)
      ensures tex.id != 0 ==>
        var r := Resolve(old(Table()), tex.id);
        QueuedAfterSubmit(r, ExQuad(tex, src, dest, color, r.slot))
    {
      if tex.id == 0 {
        return;
      }
      var slot := SubmitTex(tex.id);
      EmitQuad(ExQuad(tex, src, dest, color, slot));
    }

    /** `draw_rectangle`: an untextured quad (slot 0) with a 0-255 colour;
        the texture table is not consulted. */
    method DrawRectangle(x: int, y: int, w: int, h: int, color: Color)
      requires Valid() && mapped && cursor + 4 <= MaxVertices
      modifies this`cursor, this`indexCount, vertices
      ensures Valid() && mapped
      ensures Queued() == old(Queued()) + RectangleQuad(x, y, w, h, color)
      ensures indexCount == (old(indexCount) + 6) % U16Range
      ensures Table() == old(Table()) && draws == old(draws)
    {
      EmitQuad(RectangleQuad(x, y, w, h, color));
    }
  }
}
