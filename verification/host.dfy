/**
 * The host's font types, reduced to what the glyph registration service touches.
 * Textures, rectangles and kerning vectors are opaque: the service only stores them.
 */
module Host {

  /** A UTF-16 code unit, the C# `char`. */
  type Char16 = c: int | 0 <= c < 0x1_0000

  /** The code unit of a space. */
  const Space: Char16 := 0x20

  type Texture2D
  type Rectangle
  type Vector3

  /** One glyph record of a font: bitmap, source rectangle, padding rectangle, kerning. */
  datatype SpriteCharacterData =
    SpriteCharacterData(texture: Texture2D, glyph: Rectangle, padding: Rectangle, kerning: Vector3)

  /**
   * A host font. Only its glyph table is modelled, keyed by code unit; the service
   * writes into it in place. Fonts are compared by identity.
   */
  class DynamicSpriteFont {
    var spriteCharacters: map<Char16, SpriteCharacterData>
  }
}
