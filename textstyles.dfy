/** Text styles of the template layer (at.pkgs.pdf.template.TextStyle and
    MutableTextStyle): an immutable style, and a mutable one that keeps the
    style it was made from and a map of overridden properties in front of it. */
module TextStyles {
  import opened Wrappers

  /** An immutable style; a null font name or colour is None. Java's `float`
      sizes are modelled as reals. */
  datatype TextStyle = TextStyle(font: Option<string>, size: real, lineHeight: real, color: Option<string>)

  /** The keys MutableTextStyle stores overrides under. */
  datatype Property = Font | Size | LineHeight | Color

  /** What a `get` on the properties map may be asked for: one of the four
      properties, or the class object `Property.class`, which is never
      stored. */
  datatype Key = PropertyKey(property: Property) | PropertyClass

  /** A stored override: the font and the colour are strings that may be
      null, the size and the line height are numbers. */
  datatype Setting = TextSetting(text: Option<string>) | NumberSetting(number: real)

  /** `properties.get(key)` on a HashMap: null when the key is absent. A key
      of another type than Property is never present. */
  function Get(properties: map<Property, Setting>, key: Key): Option<Setting>
  {
    match key
    case PropertyKey(p) => if p in properties then Some(properties[p]) else None
    case PropertyClass => None
  }

  /** The cast `(String)` of a value read from the map: null stays null. */
  function AsText(s: Option<Setting>): Option<string>
    requires s.Some? ==> s.value.TextSetting?
  {
    match s
    case None => None
    case Some(setting) => setting.text
  }

  /** Strings are stored for the font and the colour, numbers for the size
      and the line height. */
  predicate WellTyped(properties: map<Property, Setting>)
  {
    forall p | p in properties :: (properties[p].TextSetting? <==> p == Font || p == Color)
  }

  class MutableTextStyle {
    /** The values read from the style given to the constructor. */
    const base: TextStyle
    /** The overrides set so far. */
    var properties: map<Property, Setting>

    ghost predicate Valid()
      reads this
    {
      WellTyped(properties)
    }

    /** `new MutableTextStyle(textStyle)` for an immutable `textStyle`: its
        four values are copied and nothing is overridden yet. */
    constructor (textStyle: TextStyle)
      ensures Valid() && base == textStyle && properties == map[]
      ensures GetFont() == textStyle.font && GetSize() == textStyle.size
      ensures GetLineHeight() == textStyle.lineHeight && GetColor() == textStyle.color
    {
      base := textStyle;
      properties := map[];
    }

    /** `new MutableTextStyle(other)` for a mutable `other`: the constructor
        reads `other`'s getters, so the copy starts from what they report
        at that moment, overrides included. */
    constructor Copy(other: MutableTextStyle)
      requires other.Valid()
      ensures Valid() && base == other.Snapshot() && properties == map[]
      ensures GetFont() == other.GetFont() && GetSize() == other.GetSize()
      ensures GetLineHeight() == other.GetLineHeight() && GetColor() == other.GetColor()
    {
      base := other.Snapshot();
      properties := map[];
    }

    /** The font: the override when one was set, else the base font. */
    function GetFont(): (r: Option<string>)
      requires Valid()
      reads this
    {
      if Font in properties then AsText(Get(properties, PropertyKey(Font))) else base.font
    }

    function GetSize(): (r: real)
      requires Valid()
      reads this
    {
      if Size in properties then Get(properties, PropertyKey(Size)).value.number else base.size
    }

    function GetLineHeight(): (r: real)
      requires Valid()
      reads this
    {
      if LineHeight in properties then Get(properties, PropertyKey(LineHeight)).value.number
      else base.lineHeight
    }

    /** The colour. Once a colour has been set the lookup is made under the
        key `Property.class` instead of `Property.COLOR`, finds nothing and
        reports null, whatever was set. */
    function GetColor(): (r: Option<string>)
      requires Valid()
      reads this
      ensures Color in properties ==> r == None
      ensures Color !in properties ==> r == base.color
    {
      if Color in properties then AsText(Get(properties, PropertyClass)) else base.color
    }

    /** The four values the getters report, as an immutable style. */
    function Snapshot(): (r: TextStyle)
      requires Valid()
      reads this
    {
      TextStyle(GetFont(), GetSize(), GetLineHeight(), GetColor())
    }

    method SetFont(value: Option<string>)
      requires Valid()
      modifies this
      ensures Valid() && properties == old(properties)[Font := TextSetting(value)]
      ensures GetFont() == value
      ensures GetSize() == old(GetSize()) && GetLineHeight() == old(GetLineHeight())
      ensures GetColor() == old(GetColor())
    {
      properties := properties[Font := TextSetting(value)];
    }

    method SetSize(value: real)
      requires Valid()
      modifies this
      ensures Valid() && properties == old(properties)[Size := NumberSetting(value)]
      ensures GetSize() == value
      ensures GetFont() == old(GetFont()) && GetLineHeight() == old(GetLineHeight())
      ensures GetColor() == old(GetColor())
    {
      properties := properties[Size := NumberSetting(value)];
    }

    method SetLineHeight(value: real)
      requires Valid()
      modifies this
      ensures Valid() && properties == old(properties)[LineHeight := NumberSetting(value)]
      ensures GetLineHeight() == value
      ensures GetFont() == old(GetFont()) && GetSize() == old(GetSize())
      ensures GetColor() == old(GetColor())
    {
      properties := properties[LineHeight := NumberSetting(value)];
    }

    /** Stores the colour; from then on GetColor reports null (see there). */
    method SetColor(value: Option<string>)
      requires Valid()
      modifies this
      ensures Valid() && properties == old(properties)[Color := TextSetting(value)]
      ensures GetColor() == None
      ensures GetFont() == old(GetFont()) && GetSize() == old(GetSize())
      ensures GetLineHeight() == old(GetLineHeight())
    {
      properties := properties[Color := TextSetting(value)];
    }
  }
}
