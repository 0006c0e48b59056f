/** Fields of the template layer (at.pkgs.pdf.template.Field and
    MutableField): the box a value is written into, its alignment, its text
    style and the formatter that turns the value into text. A MutableField
    keeps the field it was made from and a map of overridden properties in
    front of it. */
module Fields {
  import opened Wrappers
  import TextStyles
  import DocumentModel

  /** A value handed to a formatter, known only by its identity. */
  datatype Object = Object(identity: nat)

  /** A ValueFormatter: some function from values to text. */
  datatype Formatter = Formatter(format: Object -> string)

  /** The text style a field is given: an immutable TextStyle, or a
      MutableTextStyle object. */
  datatype StyleArgument =
    | Plain(style: TextStyles.TextStyle)
    | Mutable(mutable: TextStyles.MutableTextStyle)
  {
    /** What the getters of the style report. */
    function Values(): TextStyles.TextStyle
      requires Mutable? ==> mutable.Valid()
      reads if Mutable? then {mutable} else {}
    {
      match this
      case Plain(s) => s
      case Mutable(m) => m.Snapshot()
    }
  }

  /** An immutable field. */
  datatype Field = Field(
    page: DocumentModel.Int32, left: real, top: real, width: real, height: real,
    horizontalAlign: Option<DocumentModel.Horizontal>, textStyle: StyleArgument,
    valueFormatter: Option<Formatter>)

  /** Why `format` throws: there is no formatter to call. */
  datatype FormatError = NullFormatter

  /** `format(value)` of a field with formatter `formatter`: the formatter's
      text for `value`, or a NullPointerException when it is null. */
  function Format(formatter: Option<Formatter>, value: Object): Result<string, FormatError>
  {
    match formatter
    case None => Err(NullFormatter)
    case Some(f) => Ok(f.format(value))
  }

  /** The keys MutableField stores overrides under. */
  datatype Property = Page | Left | Top | Width | Height | HorizontalAlign | TextStyle | ValueFormatter

  /** A stored override, of the type its property's setter takes. */
  datatype Setting =
    | PageSetting(page: DocumentModel.Int32)
    | NumberSetting(number: real)
    | AlignSetting(align: Option<DocumentModel.Horizontal>)
    | StyleSetting(style: TextStyles.MutableTextStyle)
    | FormatterSetting(formatter: Option<Formatter>)

  predicate Fits(p: Property, s: Setting)
  {
    match p
    case Page => s.PageSetting?
    case Left | Top | Width | Height => s.NumberSetting?
    case HorizontalAlign => s.AlignSetting?
    case TextStyle => s.StyleSetting?
    case ValueFormatter => s.FormatterSetting?
  }

  /** Each property is stored with a value of its own type. */
  predicate WellTyped(properties: map<Property, Setting>)
  {
    forall p | p in properties :: Fits(p, properties[p])
  }

  class MutableField {
    /** The values read from the field given to the constructor. */
    const page: DocumentModel.Int32
    const left: real
    const top: real
    const width: real
    const height: real
    const horizontalAlign: Option<DocumentModel.Horizontal>
    /** The MutableTextStyle the constructor made from the field's style. */
    const textStyle: TextStyles.MutableTextStyle
    const valueFormatter: Option<Formatter>
    /** The overrides set so far. */
    var properties: map<Property, Setting>

    ghost predicate Valid()
      reads this
    {
      WellTyped(properties)
    }

    /** `new MutableField(field)`: the field's values are copied, its style
        is wrapped in a new MutableTextStyle made from what that style
        reports, and nothing is overridden yet. */
    constructor (field: Field)
      requires field.textStyle.Mutable? ==> field.textStyle.mutable.Valid()
      ensures Valid() && properties == map[]
      ensures GetPage() == field.page && GetLeft() == field.left && GetTop() == field.top
      ensures GetWidth() == field.width && GetHeight() == field.height
      ensures GetHorizontalAlign() == field.horizontalAlign
      ensures GetValueFormatter() == field.valueFormatter
      ensures GetTextStyle() == textStyle && fresh(textStyle)
      ensures textStyle.Valid() && textStyle.properties == map[]
      ensures textStyle.base == old(field.textStyle.Values())
    {
      page := field.page;
      left := field.left;
      top := field.top;
      width := field.width;
      height := field.height;
      horizontalAlign := field.horizontalAlign;
      if field.textStyle.Plain? {
        textStyle := new TextStyles.MutableTextStyle(field.textStyle.style);
      } else {
        textStyle := new TextStyles.MutableTextStyle.Copy(field.textStyle.mutable);
      }
      valueFormatter := field.valueFormatter;
      properties := map[];
    }

    /** `new MutableField(other)` for a mutable `other`: the constructor reads
        `other`'s getters, so the copy starts from what they report at that
        moment, overrides included. */
    constructor Copy(other: MutableField)
      requires other.Valid() && other.GetTextStyle().Valid()
      ensures Valid() && properties == map[]
      ensures GetPage() == other.GetPage() && GetLeft() == other.GetLeft()
      ensures GetTop() == other.GetTop() && GetWidth() == other.GetWidth()
      ensures GetHeight() == other.GetHeight()
      ensures GetHorizontalAlign() == other.GetHorizontalAlign()
      ensures GetValueFormatter() == other.GetValueFormatter()
      ensures GetTextStyle() == textStyle && fresh(textStyle)
      ensures textStyle.Valid() && textStyle.properties == map[]
      ensures textStyle.base == old(other.GetTextStyle().Snapshot())
    {
      page := other.GetPage();
      left := other.GetLeft();
      top := other.GetTop();
      width := other.GetWidth();
      height := other.GetHeight();
      horizontalAlign := other.GetHorizontalAlign();
      textStyle := new TextStyles.MutableTextStyle.Copy(other.GetTextStyle());
      valueFormatter := other.GetValueFormatter();
      properties := map[];
    }

    function GetPage(): (r: DocumentModel.Int32)
      requires Valid()
      reads this
    {
      if Page in properties then properties[Page].page else page
    }

    function GetLeft(): (r: real)
      requires Valid()
      reads this
    {
      if Left in properties then properties[Left].number else left
    }

    function GetTop(): (r: real)
      requires Valid()
      reads this
    {
      if Top in properties then properties[Top].number else top
    }

    function GetWidth(): (r: real)
      requires Valid()
      reads this
    {
      if Width in properties then properties[Width].number else width
    }

    function GetHeight(): (r: real)
      requires Valid()
      reads this
    {
      if Height in properties then properties[Height].number else height
    }

    function GetHorizontalAlign(): (r: Option<DocumentModel.Horizontal>)
      requires Valid()
      reads this
    {
      if HorizontalAlign in properties then properties[HorizontalAlign].align else horizontalAlign
    }

    /** The style object: the one stored by setTextStyle, else the one the
        constructor made. */
    function GetTextStyle(): (r: TextStyles.MutableTextStyle)
      requires Valid()
      reads this
    {
      if TextStyle in properties then properties[TextStyle].style else textStyle
    }

    function GetValueFormatter(): (r: Option<Formatter>)
      requires Valid()
      reads this
    {
      if ValueFormatter in properties then properties[ValueFormatter].formatter else valueFormatter
    }

    /** `format(value)`, inherited from Field: it asks the getter for the
        formatter, so an override is used once one is set. */
    function FormatValue(value: Object): Result<string, FormatError>
      requires Valid()
      reads this
    {
      Format(GetValueFormatter(), value)
    }

    /** Every getter other than the one of `p` reports what it did before. */
    twostate predicate OthersUnchanged(p: Property)
      requires old(Valid()) && Valid()
      reads this
    {
      && (p != Page ==> GetPage() == old(GetPage()))
      && (p != Left ==> GetLeft() == old(GetLeft()))
      && (p != Top ==> GetTop() == old(GetTop()))
      && (p != Width ==> GetWidth() == old(GetWidth()))
      && (p != Height ==> GetHeight() == old(GetHeight()))
      && (p != HorizontalAlign ==> GetHorizontalAlign() == old(GetHorizontalAlign()))
      && (p != TextStyle ==> GetTextStyle() == old(GetTextStyle()))
      && (p != ValueFormatter ==> GetValueFormatter() == old(GetValueFormatter()))
    }

    method SetPage(value: DocumentModel.Int32)
      requires Valid()
      modifies this
      ensures Valid() && properties == old(properties)[Page := PageSetting(value)]
      ensures GetPage() == value && OthersUnchanged(Page)
      ensures forall v :: FormatValue(v) == old(FormatValue(v))
    {
      properties := properties[Page := PageSetting(value)];
    }

    method SetLeft(value: real)
      requires Valid()
      modifies this
      ensures Valid() && properties == old(properties)[Left := NumberSetting(value)]
      ensures GetLeft() == value && OthersUnchanged(Left)
      ensures forall v :: FormatValue(v) == old(FormatValue(v))
    {
      properties := properties[Left := NumberSetting(value)];
    }

    method SetTop(value: real)
      requires Valid()
      modifies this
      ensures Valid() && properties == old(properties)[Top := NumberSetting(value)]
      ensures GetTop() == value && OthersUnchanged(Top)
      ensures forall v :: FormatValue(v) == old(FormatValue(v))
    {
      properties := properties[Top := NumberSetting(value)];
    }

    method SetWidth(value: real)
      requires Valid()
      modifies this
      ensures Valid() && properties == old(properties)[Width := NumberSetting(value)]
      ensures GetWidth() == value && OthersUnchanged(Width)
      ensures forall v :: FormatValue(v) == old(FormatValue(v))
    {
      properties := properties[Width := NumberSetting(value)];
    }

    method SetHeight(value: real)
      requires Valid()
      modifies this
      ensures Valid() && properties == old(properties)[Height := NumberSetting(value)]
      ensures GetHeight() == value && OthersUnchanged(Height)
      ensures forall v :: FormatValue(v) == old(FormatValue(v))
    {
      properties := properties[Height := NumberSetting(value)];
    }

    method SetHorizontalAlign(value: Option<DocumentModel.Horizontal>)
      requires Valid()
      modifies this
      ensures Valid() && properties == old(properties)[HorizontalAlign := AlignSetting(value)]
      ensures GetHorizontalAlign() == value && OthersUnchanged(HorizontalAlign)
      ensures forall v :: FormatValue(v) == old(FormatValue(v))
    {
      properties := properties[HorizontalAlign := AlignSetting(value)];
    }

    /** `setTextStyle(value)`: a MutableTextStyle is stored itself, so later
        changes made through it show through this field; any other style is
        wrapped in a new MutableTextStyle first. */
    method SetTextStyle(value: StyleArgument)
      requires Valid()
      modifies this
      ensures Valid() && TextStyle in properties
      ensures properties == old(properties)[TextStyle := properties[TextStyle]]
      ensures value.Mutable? ==> GetTextStyle() == value.mutable
      ensures value.Plain? ==>
        && fresh(GetTextStyle()) && GetTextStyle().Valid()
        && GetTextStyle().base == value.style && GetTextStyle().properties == map[]
      ensures OthersUnchanged(TextStyle)
      ensures forall v :: FormatValue(v) == old(FormatValue(v))
    {
      if value.Mutable? {
        properties := properties[TextStyle := StyleSetting(value.mutable)];
      } else {
        var wrapped := new TextStyles.MutableTextStyle(value.style);
        properties := properties[TextStyle := StyleSetting(wrapped)];
      }
    }

    /** `setValueFormatter(value)`: from then on `format` calls `value`. */
    method SetValueFormatter(value: Option<Formatter>)
      requires Valid()
      modifies this
      ensures Valid() && properties == old(properties)[ValueFormatter := FormatterSetting(value)]
      ensures GetValueFormatter() == value && OthersUnchanged(ValueFormatter)
      ensures forall v :: FormatValue(v) == Format(value, v)
    {
      properties := properties[ValueFormatter := FormatterSetting(value)];
    }
  }
}
