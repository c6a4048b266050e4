# Quad batcher of the Bahamut 2D renderer, in Dafny

This project models the batched 2D quad renderer of `engine/render2D.h`
(`QuadBatch`). It collects textured and coloured quads into one mapped
vertex store. Up to 32 distinct textures share one draw through numbered
texture slots. Everything queued is drawn with a single indexed draw call
when the batch is unbound.

Modules, following the source:

- `Textures` (`textures.dfy`): the `Texture` record (GL name, flip-flag word, size) and the flip-flag bits `FLIP_HORIZONTAL = 1`, `FLIP_VERTICAL = 2` of `engine/texture.h`.
- `QuadGeometry` (`geometry.dfy`): the vertex record, the four fixed UV tables, the flip-flag to UV selection of each emitter, the four-vertex shapes each emitter writes, and the value stored at each element of the index pattern.
- `TextureSlots` (`slots.dfy`): texture-slot resolution (`submit_tex`) as pure functions, and what a run of submissions produces.
- `Render2D` (`render2d.dfy`): the `QuadBatch` class. Its fields are the vertex store (an array), the element buffer (an array), the 32-entry texture table (an array), the write cursor, the `u16` index and texture counters and the blend and depth flags. Its methods are create, bind, unbind, `submit_tex` and the emitters. The file also holds `rgba_to_u32`.

How the model maps the source:

- The mapped `buffer` pointer is an integer cursor into the vertex array. `glMapBufferRange` restarts it at 0. Each `glDrawElements` is recorded in a ghost log `draws` as its element count, the texture bound to each texture unit, and the vertices written in that bracket.
- Integer widths are written out where they matter. `indexcount` is a `u16`, so `+= 6` is taken modulo 65536. The element values are stored as `GLushort`, so they are taken modulo 65536 too. `IndexCountExact` shows the count is exact only up to 10922 quads; the 10923rd wraps it to 2. `IndexPatternPerQuad` shows element values are exact only for the first 16384 quads. `DrawnIndicesInBounds` shows the two limits together are harmless for the elements actually drawn: each lies inside the vertices written in that bracket and belongs to its own quad.
- The source never checks the vertex capacity (`BATCH_MAX_SPRITES * 4` vertices). Writing past it is out-of-bounds memory access. So each emitter requires room for four more vertices (`HasRoom`), except when its texture submission will flush the batch first.
- Positions are integers. Colours are reals that stand in for `f32`, so the `/ 255` of `draw_texture_EX` and `draw_rectangle` is exact. The UVs of `draw_texture_EX` are kept as texel coordinates of the source rectangle (`Texel`). A non-zero flag word with neither flip bit leaves them uninitialised in the source; the model writes `Unset` for that case.
- Behaviours of the source that the model keeps as written:
  - When both flip bits are set, `draw_texture` selects the vertical-flip table, not the "both" table. The three `if`s run in sequence and the last match wins. The "both" table is never selected (`FlipUvs`).
  - The fixed "horizontal" table mirrors both axes, and the "both" table mirrors only u (`FlipTablesMirror`). So `draw_texture` and `draw_texture_EX` flip the same texture differently (`ExWholeTextureMatchesTables`).
  - The vertex capacity is not checked (see `HasRoom` above).
  - A flush in the middle of a batch rebinds it with `bind_quad_batch`'s defaults (engine/render2D.h:111, 143): blending on and depth test off. The blend and depth choice the caller made at its own `bind` is dropped for the rest of the batch (`SubmitTex`).

## Model

| member | source | states |
|---|---|---|
| `QuadGeometry.Scale255` | engine/render2D.h:293-296 | a channel given in 0..255 becomes a multiplier in 0..1, the convention `draw_texture` uses; full intensity 255 becomes the white multiplier 1 that the colourless overloads pass |
| `QuadGeometry.CornersExample` | engine/render2D.h:174-196 | a 32x16 texture at (10, 20) has corners (10,20), (10,36), (42,36), (42,20), in that order |
| `QuadGeometry.QuadWinding` | engine/render2D.h:86-96 | the two triangles (0,1,2) and (2,3,0) of the index pattern have the same winding over the corner order, and each covers half of the w-by-h quad |
| `QuadGeometry.FlipUvs` | engine/render2D.h:160-172 | the vertical bit selects the vertical table even when both bits are set; the horizontal bit alone selects the horizontal table; no bit selects the default; the "both" table is never selected |
| `QuadGeometry.FlipTablesMirror` | engine/render2D.h:160-163 | against the default table, the "horizontal" table mirrors u and v, the "vertical" one mirrors v, and the "both" one mirrors only u |
| `QuadGeometry.ExUvs` | engine/render2D.h:298-338 | the EX emitter always has four texture coordinates |
| `QuadGeometry.ExUvsFlips` | engine/render2D.h:299-338 | in `draw_texture_EX`, any horizontal bit mirrors u inside the source rectangle; the vertical bit alone mirrors v; both bits act as horizontal alone, so the "both" branch is dead; a non-zero word with neither bit leaves the UVs unset |
| `QuadGeometry.ExWholeTextureMatchesTables` | engine/render2D.h:299-338 | over the whole texture, EX with the horizontal bit samples what the fixed "both" table names, and with flag 0 or vertical-only what the default or vertical table names |
| `QuadGeometry.Quad` | engine/render2D.h:174-198 | an emitted quad is four vertices that all carry the same colour and the same slot |
| `TextureSlots.FirstIndex` | engine/render2D.h:133-139 | the linear search finds the first entry equal to the texture, or reports none when no entry is equal |
| `TextureSlots.Resolve` | engine/render2D.h:130-149 | the returned slot is 1-based and names the first table entry holding the texture; a flush happens exactly when a new texture meets a full table, leaving a table of just that texture; otherwise earlier slots are kept and at most one is appended; the table never exceeds 32 |
| `TextureSlots.ResolveKeepsDistinct` | engine/render2D.h:140-147 | a table without duplicates stays without duplicates |
| `TextureSlots.ResubmitKeepsSlot` | engine/render2D.h:133-139 | resubmitting the texture in entry k returns slot k + 1 and leaves the table unchanged, with no flush |
| `TextureSlots.DistinctSubmissions` | engine/render2D.h:130-149 | distinct textures are dealt slots round-robin: overall position p gets slot p % 32 + 1, every 32nd flushes, and the table ends with the last block |
| `TextureSlots.FirstSubmissionOrder` | engine/render2D.h:140-147 | k <= 32 distinct textures get slots 1..k in first-submission order, with no flush, and the table holds them in that order |
| `TextureSlots.ThirtyThirdFlushes` | engine/render2D.h:141-146 | the 33rd distinct texture causes exactly one flush, gets slot 1, and leaves a table of just itself |
| `Render2D.FillIndexPattern` | engine/render2D.h:84-96 | every element j holds corner `QuadPattern[j % 6]` of quad j / 6, stored as a `GLushort` |
| `Render2D.IndexPatternPerQuad` | engine/render2D.h:84-96 | elements 6i..6i+5 hold 4i+0, 4i+1, 4i+2, 4i+2, 4i+3, 4i+0 modulo 65536; the value is exact if and only if i < 16384 |
| `Render2D.IndexCountExact` | engine/render2D.h:57 | the `u16` index count equals six per queued quad if and only if at most 10922 quads are queued; 10923 quads leave a count of 2 |
| `Render2D.DrawnIndicesInBounds` | engine/render2D.h:446 | every element the draw reads names a vertex written in this bracket, of its own quad, with no truncation |
| `Render2D.RgbaToU32` | engine/render2D.h:559-561 | for channels in 0..255, r, g, b and a can be read back from bits 0-7, 8-15, 16-23 and 24-31 |
| `Render2D.RgbaToU32Value` | engine/render2D.h:559-561 | for channels in 0..255, the packed word equals r + 256 g + 65536 b + 16777216 a |
| `Render2D.QuadBatch.constructor` | engine/render2D.h:66-108 | a new batch has empty counters and table, no open bracket and no draws, and its element buffer holds the index pattern |
| `Render2D.QuadBatch.Bind` | engine/render2D.h:110-127 | begin sets the blend and depth flags and restarts the cursor at 0 with nothing queued; counters, table and draws are unchanged |
| `Render2D.QuadBatch.Unbind` | engine/render2D.h:430-461 | end issues one draw with the queued index count, table entry i bound to unit i, and the queued vertices; every drawn element names a queued vertex of its own quad; the index count and table are reset to empty |
| `Render2D.QuadBatch.SubmitTex` | engine/render2D.h:129-149 | returns `Resolve`'s slot and leaves `Resolve`'s table; on a flush it draws the pending batch and rebinds with blending on and depth test off, restarting the cursor; otherwise cursor, counters and flags are unchanged |
| `Render2D.QuadBatch.DrawTexture` | engine/render2D.h:151-199 | the null texture changes nothing; otherwise the slot is resolved, the cursor advances by 4 from 0 after a flush or from where it was, exactly the four texture-sized corners (TL, BL, BR, TR) with the flip-selected UVs are appended, the index count grows by 6 (mod 2^16), and no other vertex changes |
| `Render2D.QuadBatch.DrawTextureRotated` | engine/render2D.h:211-276 | as `DrawTexture`, with each corner marked to be turned about the pivot by the angle, and left in place when the angle is 0 |
| `Render2D.QuadBatch.DrawTextureRotatedCentered` | engine/render2D.h:278-281 | as `DrawTextureRotated` with the pivot at the quad's centre (x + width/2, y + height/2) |
| `Render2D.QuadBatch.DrawTextureEx` | engine/render2D.h:288-367 | as `DrawTexture`, with corners from `dest`, UVs from `ExUvs` over `src`, and the colour divided by 255 |
| `Render2D.QuadBatch.DrawRectangle` | engine/render2D.h:384-419 | appends four vertices of slot 0 and UV (0,0) at the `dest` corners with the colour divided by 255; adds 6 to the index count; the table and the draws are unchanged |

## Left out

- OpenGL calls are not modelled: buffer and vertex-array creation, attribute setup and enabling, `glUnmapBuffer`, and the `unbind_texture` loop after the draw. Only their effect on the batch's own state and the draw log is kept.
- `load_quad_shader` and its GLSL sources (engine/render2D.h:463-549), and `dispose_quad_batch` (engine/render2D.h:551-557): shader compilation, uniform uploads and GL deletion.
- The shader's slot wiring is not modelled, and it does not line up with the batch. The host uploads uniforms named `textures[i]` (engine/render2D.h:541-546), but the fragment shader declares `sampler[32]` (engine/render2D.h:474); `shader.h` is not part of this model, so whether that lookup fails is open. Even with matching names, a vertex of slot k samples `sampler[k]` (engine/render2D.h:479-509), while `unbind_quad_batch` binds slot k's texture to unit k - 1 (engine/render2D.h:435-438). Slot 32 has no branch at all.
- Render2D.QuadBatch.DrawTextureRotated: the rotation itself (cosine and sine of the angle in radians) is floating-point trigonometry. Rotated corners are kept as the unrotated corner plus pivot and angle.
- Float rounding: colours and pivots are exact reals; positions are integers, which the source converts to `f32`; the normalisation of the EX UVs by the texture's width and height is not performed.
- The forwarding overloads that only supply a white colour or unpack a `vec4` (engine/render2D.h:201-209, 283-286, 369-377, 421-424) and `draw_framebuffer` (engine/render2D.h:379-382), which calls `draw_texture`.
- Render2D.RgbaToU32: takes its `i32` arguments as their 32-bit patterns, so a channel of 128 or more shifted into the top byte wraps instead of being a signed overflow.
- After `bind` the vertex store's old contents are invalidated by GL; the model keeps them in the array but only counts the vertices written since `bind` as queued.
- The rest of `engine/texture.h` (texture and framebuffer creation, the threaded image scaler), `render.h`, `main.cpp` and `map_editor.h`: GL, image-library, model-loading and window glue, and floating-point matrix work.
