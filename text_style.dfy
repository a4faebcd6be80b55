/**
 * The centre-text style: a bitmask of `TextStyle` values (BOLD = 1,
 * ITALIC = 2, UNDERLINE = 4, NORMAL = 0) decoded into the text paint's
 * underline flag and typeface. The mask is a Kotlin `Int`, hence `bv32`.
 */
module TextStyle {

  const Bold: bv32 := 1
  const Italic: bv32 := 2
  const Underline: bv32 := 4

  /** The typeface handed to the text paint; `NoTypeface` is the `null` typeface. */
  datatype Typeface = NoTypeface | BoldFace | ItalicFace | BoldItalicFace

  datatype TextPaintStyle = TextPaintStyle(underline: bool, typeface: Typeface)

  /** The typeface that a bold and an italic request call for. */
  function TypefaceFor(bold: bool, italic: bool): Typeface
  {
    if bold && italic then BoldItalicFace
    else if bold then BoldFace
    else if italic then ItalicFace
    else NoTypeface
  }

  /** The decode done when the text paint is (re)initialised. */
  function DecodeTextStyle(style: bv32): TextPaintStyle
  {
    var underline := style & 4 == 4;
    var typeface :=
      if style & 1 == 1 && style & 2 == 2 then BoldItalicFace
      else if style & 1 == 1 then BoldFace
      else if style & 2 == 2 then ItalicFace
      else NoTypeface;
    TextPaintStyle(underline, typeface)
  }

  /** A style mask built by OR-ing the requested `TextStyle` values, as a host does. */
  function ComposeTextStyle(bold: bool, italic: bool, underline: bool): (style: bv32)
    ensures style & 7 == style
  {
    (if bold then Bold else 0) | (if italic then Italic else 0) | (if underline then Underline else 0)
  }

  /** Decoding a composed mask gives back each requested attribute. */
  lemma DecodeCompose(bold: bool, italic: bool, underline: bool)
    ensures DecodeTextStyle(ComposeTextStyle(bold, italic, underline)) ==
      TextPaintStyle(underline, TypefaceFor(bold, italic))
  {
  }

  /** Every mask decodes as its three low bits do; all other bits are ignored. */
  lemma DecodeReadsLowBits(style: bv32)
    ensures DecodeTextStyle(style) == DecodeTextStyle(style & 7)
    ensures DecodeTextStyle(style) ==
      TextPaintStyle(style & Underline != 0, TypefaceFor(style & Bold != 0, style & Italic != 0))
  {
  }
}
