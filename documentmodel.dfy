/** The data the document builder consumes (at.pkgs.pdf.builder.DocumentModel):
    plain records read from XML. Only the fields the modelled code reads
    are kept; a null string is None. */
module DocumentModel {
  import opened Wrappers

  /** Java's `int`. */
  type Int32 = x: int | -0x8000_0000 <= x < 0x8000_0000

  /** Horizontal alignment of a text in its box. */
  datatype Horizontal = Left | Center | Right

  /** A font to register under `name`, loaded from `file`. */
  datatype Font = Font(name: Option<string>, file: Option<string>, encoding: Option<string>, embeded: bool)

  /** A text to draw in the box (left, top, width, height) of `page`. */
  datatype Text = Text(
    page: Int32, left: real, top: real, width: real, height: real, leading: real,
    horizontal: Option<Horizontal>, font: Option<string>, size: real, color: Option<string>,
    value: Option<string>)

  /** A value placed on a page: a Text, or any other implementation of the
      Value interface, known only by its page. */
  datatype Value = TextValue(text: Text) | OtherValue(otherPage: Int32)
  {
    function Page(): Int32
    {
      match this
      case TextValue(t) => t.page
      case OtherValue(p) => p
    }
  }

  /** The fonts and the values of one document; either list may be null. */
  datatype Document = Document(fonts: Option<seq<Font>>, values: Option<seq<Value>>)
}
