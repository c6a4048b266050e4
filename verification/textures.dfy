/** The texture record the quad batcher reads (engine/texture.h): a GL
    texture name, flip flags and the pixel size. Creating, loading and
    scaling textures are GL and image-library work and are not modelled. */
module Textures {

  /** Flip-flag bits. The source declares them as `u16` constants and tests
      them against the texture's `u64` flag word. */
  const FlipHorizontal: bv64 := 1
  const FlipVertical: bv64 := 2

  /** `ID` 0 is the null texture a failed load leaves behind. */
  datatype Texture = Texture(id: nat, flipFlag: bv64, width: int, height: int)

  /** The `flag & FLIP_HORIZONTAL` and `flag & FLIP_VERTICAL` tests. */
  predicate HorizontalBit(flag: bv64) {
    (flag & FlipHorizontal) != 0
  }

  predicate VerticalBit(flag: bv64) {
    (flag & FlipVertical) != 0
  }
}
