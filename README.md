# Code 39 barcodes, template styles and the document builder

This project models in Dafny the parts of the PDF tool set that encode and
lay out data rather than talk to the PDF library:

- **The Code 39 encoder** (`Code39`, module `Code39`). A bar/space symbol,
  the builders that mark wide bars and wide spaces in a nine-symbol pattern,
  the 44 characters with their patterns, numbers and glyphs, the two static
  indexes and both `valueOf` lookups, the `Drawer` that draws margins,
  gaps, bars, spaces and labels, the encoder's configuration, and `encode`,
  which frames the data with `*`, adds the modulo-43 check character on
  request, and fails on the first character it cannot encode.
- **The one-dimensional image** (`OneDimensionalImage`, module `Image`) the
  encoder draws into: a running size, the bars laid out so far, and the
  label. The model also keeps the sequence of strokes drawn, from
  which the bars and the size are functions (`Layout`, `Total`).
- **Template styles and fields** (modules `TextStyles` and `Fields`):
  `MutableTextStyle` and `MutableField`, which keep the values of the object
  they were made from and a map of overrides in front of them. They include
  `getColor`'s lookup under `Property.class`, which makes the colour read
  back as null once one has been set; the rule that a field's style is
  always a `MutableTextStyle`, wrapping plain styles; and `Field.format`.
- **The document builder** (module `DocumentBuilder`): the colour branch of
  `buildFont` (three- or six-digit hexadecimal colours, without `#`, read
  with `Integer.parseInt(s, 16)` and split into channels by 32-bit masks
  and shifts; the length is `String.length()`, in UTF-16 code units), and `merge`: fonts
  registered first, then the values drawn in page order, through a copy
  sorted by a comparator that subtracts `int` pages.
  The PDF objects are replaced by the list of texts drawn, each with its
  page and font.

The module `Iso16388` is an independent reference: the bar/space table
(Table 1) and the modulo-43 check character of ISO/IEC 16388:2007, written
from the standard. The Code 39 model is proved equal to it character by
character.

Java `double` and `float` lengths are reals. In the document model and the
builder, `int` is the subtype `Int32`, and the colour arithmetic is on
`bv32`, as in Java. In Code 39 the ordinals, the number given to `valueOf`
and the check accumulator are unbounded `int`: the accumulator is reduced
modulo 43 at every step and a number outside 0..43 fails the lookup, so no
32-bit behaviour is lost. A null reference is
`None`. An exception is an `Err` result, so no state is returned with it
except where the code has already changed state before throwing
(`DocumentBuilder.text` switches page before its colour is checked).

Where the code departs from what its names suggest, the model follows the
code:

- `MutableTextStyle.getColor` reports null after `setColor`.
- `Integer.parseInt` accepts a leading `+` or `-`, so `"-FF"` is a valid
  three-character colour. Its bits are split like any other.
- The page comparator of `merge` is `l.getPage() - r.getPage()` in 32-bit
  arithmetic. It wraps for pages far apart.

## Model

| member | source | states |
|---|---|---|
| Image.OneDimensionalImage.constructor | at.pkgs.pdf.template/src/at/pkgs/barcode/OneDimensionalImage.java:52-56 | a new image has size 0, no bars, an empty label and no strokes drawn |
| Image.OneDimensionalImage.Draw | at.pkgs.pdf.template/src/at/pkgs/barcode/OneDimensionalImage.java:70-74 | the size grows by exactly `length`; a bar appends one `Bar(old size, length)` and keeps the earlier bars, a space appends none; the label is unchanged and the invariant `size == Total(strokes) && bars == Layout(strokes)` is kept |
| Image.OneDimensionalImage.Text | at.pkgs.pdf.template/src/at/pkgs/barcode/OneDimensionalImage.java:76-79 | the character is appended to the label; size, bars and strokes are unchanged |
| Image.TotalAppend | at.pkgs.pdf.template/src/at/pkgs/barcode/OneDimensionalImage.java:72 | the size after two runs of `draw` is the sum of their sizes |
| Image.BarCountAppend | at.pkgs.pdf.template/src/at/pkgs/barcode/OneDimensionalImage.java:71 | the bar count of two runs of `draw` is the sum of their bar counts |
| Image.LayoutLength | at.pkgs.pdf.template/src/at/pkgs/barcode/OneDimensionalImage.java:71 | one bar per bar stroke, none per space |
| Image.LayoutAt | at.pkgs.pdf.template/src/at/pkgs/barcode/OneDimensionalImage.java:70-73 | the bar drawn by stroke `j` sits at the total length drawn before it and has that stroke's length |
| Image.BarCountMonotone | at.pkgs.pdf.template/src/at/pkgs/barcode/OneDimensionalImage.java:71 | drawing more never removes bars |
| Image.LayoutOrdered | at.pkgs.pdf.template/src/at/pkgs/barcode/OneDimensionalImage.java:70-73 | when no length is negative, bars are in position order, do not overlap, and the last ends within the size |
| Image.TotalNonNegative | at.pkgs.pdf.template/src/at/pkgs/barcode/OneDimensionalImage.java:72 | when no length is negative, neither is the size |
| Image.NegativeLengthBreaksOrder | at.pkgs.pdf.template/src/at/pkgs/barcode/OneDimensionalImage.java:70-73 | `draw` validates nothing: a negative space puts the next bar before the previous one |
| Code39.BarPattern.Build | at.pkgs.pdf.bench/src/at/pkgs/barcode/Code39.java:101-104 | the array afterwards is the old one with slot `2 * m` set to a wide bar for each mark `m` of the rule, in order |
| Code39.SpacePattern.Build | at.pkgs.pdf.bench/src/at/pkgs/barcode/Code39.java:132-135 | the array afterwards is the old one with slot `2 * m + 1` set to a wide space for each mark `m` of the rule, in order |
| Code39.PatternBuilder.Build | at.pkgs.pdf.bench/src/at/pkgs/barcode/Code39.java:65-69 | either builder kind changes the array as its rule says |
| Code39.MarkBarsAt | at.pkgs.pdf.bench/src/at/pkgs/barcode/Code39.java:102-104 | marking bars changes only the even slots `2 * m` of the marks, and makes exactly those wide bars |
| Code39.MarkSpacesAt | at.pkgs.pdf.bench/src/at/pkgs/barcode/Code39.java:133-135 | marking spaces changes only the odd slots `2 * m + 1` of the marks, and makes exactly those wide spaces |
| Code39.NewPattern | at.pkgs.pdf.bench/src/at/pkgs/barcode/Code39.java:233-243 | the constructor's `Symbol[9]`: the narrow bar/space alternation, then each builder run on it in turn |
| Code39.InitialTally | at.pkgs.pdf.bench/src/at/pkgs/barcode/Code39.java:238-239 | the alternation before the builders holds five narrow bars and four narrow spaces |
| Code39.MarkBarsCount | at.pkgs.pdf.bench/src/at/pkgs/barcode/Code39.java:102-104 | distinct marks over narrow bars turn exactly that many narrow bars wide and leave the spaces alone |
| Code39.MarkSpacesCount | at.pkgs.pdf.bench/src/at/pkgs/barcode/Code39.java:133-135 | distinct marks over narrow spaces turn exactly that many narrow spaces wide and leave the bars alone |
| Code39.RuleCounts | at.pkgs.pdf.bench/src/at/pkgs/barcode/Code39.java:73-135 | a bar rule and a space rule give `5 - b` narrow bars, `b` wide bars, `4 - s` narrow spaces and `s` wide spaces, for `b` and `s` marks |
| Code39.PatternShape | at.pkgs.pdf.bench/src/at/pkgs/barcode/Code39.java:237-241 | every pattern has nine symbols, and slot `i` is a bar exactly when `i` is even |
| Code39.SymbolCounts | at.pkgs.pdf.bench/src/at/pkgs/barcode/Code39.java:141-227 | every pattern has three wide elements: two wide bars and one wide space, except `$ / + %`, which have no wide bar and three wide spaces |
| Code39.SpecialRules | at.pkgs.pdf.bench/src/at/pkgs/barcode/Code39.java:219-225 | exactly the four characters built with the empty bar rule use a triple space rule |
| Code39.PatternOfRules | at.pkgs.pdf.bench/src/at/pkgs/barcode/Code39.java:233-243 | the builders of a character produce the slot pattern its two rules describe |
| Code39.RulesInjective | at.pkgs.pdf.bench/src/at/pkgs/barcode/Code39.java:141-227 | no two characters are declared with the same pair of rules |
| Code39.OfRulesFinds | at.pkgs.pdf.bench/src/at/pkgs/barcode/Code39.java:141-227 | reading the declarations backwards by rules finds every character |
| Code39.PatternsDistinct | at.pkgs.pdf.bench/src/at/pkgs/barcode/Code39.java:141-227 | the 44 patterns are pairwise distinct |
| Code39.MatchesIso16388 | at.pkgs.pdf.bench/src/at/pkgs/barcode/Code39.java:141-227 | each character's pattern is the wide/narrow sequence ISO/IEC 16388:2007 Table 1 gives for its glyph |
| Code39.GlyphsAreIsoCharacters | at.pkgs.pdf.bench/src/at/pkgs/barcode/Code39.java:141-227 | the glyphs of the table are exactly the 43 data characters and `*` of ISO/IEC 16388 |
| Code39.Number | at.pkgs.pdf.bench/src/at/pkgs/barcode/Code39.java:245-247 | `getNumber()` is an ordinal below 44 |
| Code39.ValuesNumbered | at.pkgs.pdf.bench/src/at/pkgs/barcode/Code39.java:245-247 | `values()` has 44 entries and holds every character at the position of its number |
| Code39.NumberInjective | at.pkgs.pdf.bench/src/at/pkgs/barcode/Code39.java:245-247 | two characters with the same number are the same |
| Code39.GlyphInjective | at.pkgs.pdf.bench/src/at/pkgs/barcode/Code39.java:278-287 | two characters with the same glyph are the same, so the glyph index loses no entry |
| Code39.Index | at.pkgs.pdf.bench/src/at/pkgs/barcode/Code39.java:267-287 | the index built by one `put` per character has exactly the characters' keys |
| Code39.IndexesFind | at.pkgs.pdf.bench/src/at/pkgs/barcode/Code39.java:267-287 | both static indexes find every character under its own key |
| Code39.ValueOfNumberRoundTrip | at.pkgs.pdf.bench/src/at/pkgs/barcode/Code39.java:289-296 | `valueOf(c.getNumber())` is `c` |
| Code39.ValueOfNumberDefined | at.pkgs.pdf.bench/src/at/pkgs/barcode/Code39.java:289-296 | `valueOf(int)` succeeds exactly for 0..43 and yields the character with that number; otherwise it fails naming the number |
| Code39.ValueOfCharFound | at.pkgs.pdf.bench/src/at/pkgs/barcode/Code39.java:298-305 | what `valueOf(char)` finds has the upper case of the argument as glyph; a failure names the argument |
| Code39.ValueOfCharDefined | at.pkgs.pdf.bench/src/at/pkgs/barcode/Code39.java:298-305 | `valueOf(char)` succeeds exactly when the upper case of the argument is a character ISO/IEC 16388 encodes |
| Code39.ValueOfCharRoundTrip | at.pkgs.pdf.bench/src/at/pkgs/barcode/Code39.java:298-305 | `valueOf(c.getCharacter())` is `c` |
| Code39.GlyphUpper | at.pkgs.pdf.bench/src/at/pkgs/barcode/Code39.java:301 | upper-casing a glyph of the table leaves it unchanged |
| Code39.ValueOfCharCaseInsensitive | at.pkgs.pdf.bench/src/at/pkgs/barcode/Code39.java:301 | a lower-case ASCII letter is found, and finds what its upper case finds |
| Code39.NumberIsCheckValue | at.pkgs.pdf.bench/src/at/pkgs/barcode/Code39.java:245-247 | each ordinal is the ISO/IEC 16388 check-character value of the glyph, and `*` has none |
| Code39.ChecksumIsSumModulo | at.pkgs.pdf.bench/src/at/pkgs/barcode/Code39.java:426-427 | the accumulator, reduced at every step, is the sum of the ordinals modulo 43 and stays in 0..42 |
| Code39.ChecksumSkipsAsterisk | at.pkgs.pdf.bench/src/at/pkgs/barcode/Code39.java:424-427 | a `*` in the input is accepted and leaves the accumulator as it was (43 is 0 modulo 43) |
| Code39.CheckCharacter | at.pkgs.pdf.bench/src/at/pkgs/barcode/Code39.java:429-430 | `valueOf(checkDigit)` is the character numbered by the sum modulo 43, and is never `*` |
| Code39.CheckCharacterByNumber | at.pkgs.pdf.bench/src/at/pkgs/barcode/Code39.java:429-430 | the check character is the one character whose number is the sum modulo 43 |
| Code39.CheckCharacterMatchesIso16388 | at.pkgs.pdf.bench/src/at/pkgs/barcode/Code39.java:419-430 | for input without `*`, the check character drawn is the modulo-43 check character of ISO/IEC 16388 for the same data |
| Code39.CheckCharacterExample | at.pkgs.pdf.bench/src/at/pkgs/barcode/Code39.java:419-430 | the check character of "123" is '6' |
| Code39.CheckByNumber | at.pkgs.pdf.bench/src/at/pkgs/barcode/Code39.java:430 | the lookup by the accumulator returns the check character of the data |
| Code39.Drawer.constructor | at.pkgs.pdf.bench/src/at/pkgs/barcode/Code39.java:313-315 | a drawer starts a fresh, empty image and reads the configuration of its encoder |
| Code39.Drawer.DrawMargin | at.pkgs.pdf.bench/src/at/pkgs/barcode/Code39.java:321-324 | one space stroke of the margin's length |
| Code39.Drawer.DrawCharacterGap | at.pkgs.pdf.bench/src/at/pkgs/barcode/Code39.java:326-329 | one space stroke of the character gap's length |
| Code39.Drawer.DrawSpace | at.pkgs.pdf.bench/src/at/pkgs/barcode/Code39.java:331-334 | one space stroke, `wide` long when wide, 1 otherwise |
| Code39.Drawer.DrawBar | at.pkgs.pdf.bench/src/at/pkgs/barcode/Code39.java:336-339 | one bar stroke, `wide` long when wide, 1 otherwise |
| Code39.Drawer.DrawText | at.pkgs.pdf.bench/src/at/pkgs/barcode/Code39.java:341-344 | one character appended to the label, no stroke |
| Code39.Drawer.DrawSymbol | at.pkgs.pdf.bench/src/at/pkgs/barcode/Code39.java:258-263 | a space symbol draws a space and a bar symbol a bar, each of its width |
| Code39.Drawer.DrawCharacter | at.pkgs.pdf.bench/src/at/pkgs/barcode/Code39.java:257-265 | the nine symbols of the pattern in order, then the glyph; the image invariant is kept |
| Code39.CharacterMeasure | at.pkgs.pdf.bench/src/at/pkgs/barcode/Code39.java:257-265 | every character draws nine strokes with five bars, `6 + 3 * wide` long in all |
| Code39.Code39.constructor | at.pkgs.pdf.bench/src/at/pkgs/barcode/Code39.java:361-366 | the given check setting, margin 10, character gap 1, wide ratio 2.25 |
| Code39.Code39.Default | at.pkgs.pdf.bench/src/at/pkgs/barcode/Code39.java:368-370 | the no-argument constructor turns the check character on, with the same defaults |
| Code39.Code39.SetCheckDigit | at.pkgs.pdf.bench/src/at/pkgs/barcode/Code39.java:372-375 | sets the check setting and nothing else |
| Code39.Code39.SetMargin | at.pkgs.pdf.bench/src/at/pkgs/barcode/Code39.java:377-380 | sets the margin and nothing else |
| Code39.Code39.SetCharacterGap | at.pkgs.pdf.bench/src/at/pkgs/barcode/Code39.java:382-385 | sets the character gap and nothing else |
| Code39.Code39.SetWide | at.pkgs.pdf.bench/src/at/pkgs/barcode/Code39.java:387-390 | sets the wide ratio and nothing else |
| Code39.LookUpEachOk | at.pkgs.pdf.bench/src/at/pkgs/barcode/Code39.java:421-425 | looking up each character succeeds exactly when every lookup does, and yields the results in order |
| Code39.LookUpEachError | at.pkgs.pdf.bench/src/at/pkgs/barcode/Code39.java:421-424 | a failed run of lookups fails with the error of the first failing character |
| Code39.ValueOfCharsOk | at.pkgs.pdf.bench/src/at/pkgs/barcode/Code39.java:421-424 | the input is encodable exactly when every character is in the table up to case |
| Code39.ValueOfCharsGlyphs | at.pkgs.pdf.bench/src/at/pkgs/barcode/Code39.java:421-425 | an encodable input yields one character per input character, whose glyph is its upper case |
| Code39.ValueOfCharsError | at.pkgs.pdf.bench/src/at/pkgs/barcode/Code39.java:421-424 | an input that is not encodable fails naming its first character not in the table, all before it being found |
| Code39.DrawData | at.pkgs.pdf.bench/src/at/pkgs/barcode/Code39.java:419-428 | the loop draws a gap and each character, returns the running modulo-43 accumulator; an input not in the table returns the first lookup error |
| Code39.DrawOpening | at.pkgs.pdf.bench/src/at/pkgs/barcode/Code39.java:420 | a margin, then `*` |
| Code39.DrawClosing | at.pkgs.pdf.bench/src/at/pkgs/barcode/Code39.java:429-431 | the check character after a gap when it is on, `*` after a gap, the margin |
| Code39.Code39.Encode | at.pkgs.pdf.bench/src/at/pkgs/barcode/Code39.java:414-433 | an input with a character not in the table gives its error and no image; otherwise the image's strokes are margin, `*`, (gap, character) for each data character, (gap, check) when on, (gap, `*`), margin, and its label is the glyphs drawn |
| Code39.EncodedTextShape | at.pkgs.pdf.bench/src/at/pkgs/barcode/Code39.java:414-433 | the label is `*`, the upper-cased input, the check glyph when on, and `*` |
| Code39.RunMeasure | at.pkgs.pdf.bench/src/at/pkgs/barcode/Code39.java:421-428 | `n` characters after gaps draw `5 * n` bars in `n * (gap + 6 + 3 * wide)` |
| Code39.EncodedMeasure | at.pkgs.pdf.bench/src/at/pkgs/barcode/Code39.java:414-433 | with `k` characters drawn (input, check, two `*`), the image has `5 * k` bars and size `2 * margin + (k - 1) * gap + k * (6 + 3 * wide)` |
| TextStyles.MutableTextStyle.constructor | at.pkgs.pdf.template/src/at/pkgs/pdf/template/MutableTextStyle.java:39-46 | a fresh style reports the font, size, line height and colour of the style it was made from; nothing is overridden |
| TextStyles.MutableTextStyle.Copy | at.pkgs.pdf.template/src/at/pkgs/pdf/template/MutableTextStyle.java:39-46 | made from a mutable style, it reports what that style's getters reported at construction |
| TextStyles.MutableTextStyle.GetColor | at.pkgs.pdf.template/src/at/pkgs/pdf/template/MutableTextStyle.java:85-91 | before any `setColor` the base colour; after one, null, whatever was set, because the lookup uses `Property.class` |
| TextStyles.MutableTextStyle.SetFont | at.pkgs.pdf.template/src/at/pkgs/pdf/template/MutableTextStyle.java:57-59 | the font getter then reports the value, null included; the other getters are unchanged |
| TextStyles.MutableTextStyle.SetSize | at.pkgs.pdf.template/src/at/pkgs/pdf/template/MutableTextStyle.java:69-71 | the size getter then reports the value; the other getters are unchanged |
| TextStyles.MutableTextStyle.SetLineHeight | at.pkgs.pdf.template/src/at/pkgs/pdf/template/MutableTextStyle.java:81-83 | the line-height getter then reports the value; the other getters are unchanged |
| TextStyles.MutableTextStyle.SetColor | at.pkgs.pdf.template/src/at/pkgs/pdf/template/MutableTextStyle.java:93-95 | the colour is stored, yet the colour getter then reports null; the other getters are unchanged |
| Fields.MutableField.constructor | at.pkgs.pdf.template/src/at/pkgs/pdf/template/MutableField.java:48-59 | a fresh field reports the page, box, alignment and formatter of the field it was made from, and a new mutable copy of its style made from what that style reports |
| Fields.MutableField.Copy | at.pkgs.pdf.template/src/at/pkgs/pdf/template/MutableField.java:48-59 | made from a mutable field, it reports what that field's getters reported at construction |
| Fields.MutableField.SetPage | at.pkgs.pdf.template/src/at/pkgs/pdf/template/MutableField.java:61-71 | the page getter then reports the value; the other seven getters are unchanged, and `format` (Field.java:98-100) gives what it gave before for every value |
| Fields.MutableField.SetLeft | at.pkgs.pdf.template/src/at/pkgs/pdf/template/MutableField.java:73-83 | the left getter then reports the value; the other getters are unchanged, and `format` (Field.java:98-100) gives what it gave before for every value |
| Fields.MutableField.SetTop | at.pkgs.pdf.template/src/at/pkgs/pdf/template/MutableField.java:85-95 | the top getter then reports the value; the other getters are unchanged, and `format` (Field.java:98-100) gives what it gave before for every value |
| Fields.MutableField.SetWidth | at.pkgs.pdf.template/src/at/pkgs/pdf/template/MutableField.java:97-107 | the width getter then reports the value; the other getters are unchanged, and `format` (Field.java:98-100) gives what it gave before for every value |
| Fields.MutableField.SetHeight | at.pkgs.pdf.template/src/at/pkgs/pdf/template/MutableField.java:109-119 | the height getter then reports the value; the other getters are unchanged, and `format` (Field.java:98-100) gives what it gave before for every value |
| Fields.MutableField.SetHorizontalAlign | at.pkgs.pdf.template/src/at/pkgs/pdf/template/MutableField.java:121-131 | the alignment getter then reports the value, null included; the other getters are unchanged, and `format` (Field.java:98-100) gives what it gave before for every value |
| Fields.MutableField.SetTextStyle | at.pkgs.pdf.template/src/at/pkgs/pdf/template/MutableField.java:133-143 | a mutable style is stored itself; any other is wrapped in a new mutable style reporting its values; the other getters are unchanged, and `format` (Field.java:98-100) gives what it gave before for every value |
| Fields.MutableField.SetValueFormatter | at.pkgs.pdf.template/src/at/pkgs/pdf/template/MutableField.java:145-155 | the formatter getter then reports the value, null included, and `format` (Field.java:98-100) calls it for every value from then on; the other getters are unchanged |
| DocumentBuilder.HexDigit | at.pkgs.pdf.builder/src/at/pkgs/pdf/builder/DocumentBuilder.java:86 | a character is a base-16 digit exactly when it is 0-9, a-f or A-F, and its value is its distance from '0', or from 'a' or 'A' plus 10 |
| DocumentBuilder.ParseHexAccepts | at.pkgs.pdf.builder/src/at/pkgs/pdf/builder/DocumentBuilder.java:86 | `parseInt(s, 16)` succeeds exactly on an optional sign followed by one hexadecimal digit or more |
| DocumentBuilder.BuildColor | at.pkgs.pdf.builder/src/at/pkgs/pdf/builder/DocumentBuilder.java:83-100 | every channel set is in 0..255 |
| DocumentBuilder.Utf16LengthBmp | at.pkgs.pdf.builder/src/at/pkgs/pdf/builder/DocumentBuilder.java:83 | `length()` equals the number of characters exactly when none lies outside the Basic Multilingual Plane |
| DocumentBuilder.ColorUnset | at.pkgs.pdf.builder/src/at/pkgs/pdf/builder/DocumentBuilder.java:83-100 | no colour is set exactly for a null colour or one whose length in UTF-16 code units is neither 3 nor 6 |
| DocumentBuilder.ShortColorChannels | at.pkgs.pdf.builder/src/at/pkgs/pdf/builder/DocumentBuilder.java:83-91 | three hex digits give the channels `17 * digit` for red, green and blue in order |
| DocumentBuilder.LongColorChannels | at.pkgs.pdf.builder/src/at/pkgs/pdf/builder/DocumentBuilder.java:92-100 | six hex digits give red, green and blue as the three bytes, high first |
| DocumentBuilder.ColorRejected | at.pkgs.pdf.builder/src/at/pkgs/pdf/builder/DocumentBuilder.java:83-100 | a colour of 3 or 6 UTF-16 code units fails with a number-format error naming it exactly when it is not a hexadecimal numeral |
| DocumentBuilder.SupplementaryColors | at.pkgs.pdf.builder/src/at/pkgs/pdf/builder/DocumentBuilder.java:83-100 | an emoji and one digit (three code units) throw; an emoji and two digits (four code units) set no colour |
| DocumentBuilder.SignedColor | at.pkgs.pdf.builder/src/at/pkgs/pdf/builder/DocumentBuilder.java:86-90 | a signed colour such as "-FF" is accepted and taken apart as the 32-bit pattern of -255 |
| DocumentBuilder.CompareEqual | at.pkgs.pdf.builder/src/at/pkgs/pdf/builder/DocumentBuilder.java:177-181 | the comparator calls two values equal exactly when their pages are equal |
| DocumentBuilder.CompareByPage | at.pkgs.pdf.builder/src/at/pkgs/pdf/builder/DocumentBuilder.java:177-181 | for pages that are not negative the comparator is the page difference |
| DocumentBuilder.CompareWraps | at.pkgs.pdf.builder/src/at/pkgs/pdf/builder/DocumentBuilder.java:180 | far-apart pages make the `int` subtraction wrap and invert the order |
| DocumentBuilder.SortPermutes | at.pkgs.pdf.builder/src/at/pkgs/pdf/builder/DocumentBuilder.java:173-183 | the sorted copy holds every value as often as the model's list |
| DocumentBuilder.SortOrdered | at.pkgs.pdf.builder/src/at/pkgs/pdf/builder/DocumentBuilder.java:173-183 | with pages that are not negative, the sorted copy is in non-decreasing page order |
| DocumentBuilder.SortStable | at.pkgs.pdf.builder/src/at/pkgs/pdf/builder/DocumentBuilder.java:173-183 | values on the same page keep their input order |
| DocumentBuilder.RegisterFontsLookup | at.pkgs.pdf.builder/src/at/pkgs/pdf/builder/DocumentBuilder.java:167-169 | after the font loop a name maps to the font of its last entry in the list; other names keep what they had |
| DocumentBuilder.RenderStops | at.pkgs.pdf.builder/src/at/pkgs/pdf/builder/DocumentBuilder.java:184 | once a value throws, the later values change nothing |
| DocumentBuilder.RenderDrawsAll | at.pkgs.pdf.builder/src/at/pkgs/pdf/builder/DocumentBuilder.java:184 | when no value throws, the texts drawn are the values' texts in the sorted order, each with the font built from its own name, size and colour |
| DocumentBuilder.DocumentBuilder.constructor | at.pkgs.pdf.builder/src/at/pkgs/pdf/builder/DocumentBuilder.java:58-67 | no fonts, page 0, no crop box read (`size` stays null), nothing drawn |
| DocumentBuilder.DocumentBuilder.Font | at.pkgs.pdf.builder/src/at/pkgs/pdf/builder/DocumentBuilder.java:69-77 | registers the font under its name, replacing any earlier one; nothing else changes |
| DocumentBuilder.DocumentBuilder.SetPage | at.pkgs.pdf.builder/src/at/pkgs/pdf/builder/DocumentBuilder.java:104-109 | the current page becomes the given one; a crop box is read exactly when the page changes, so `size` stays null on a builder that never left page 0; fonts and drawn texts are unchanged |
| DocumentBuilder.DocumentBuilder.Text | at.pkgs.pdf.builder/src/at/pkgs/pdf/builder/DocumentBuilder.java:121-154 | switches to the text's page first and reads its height, which throws while no crop box has been read; then builds the font, where a bad colour throws with the page switched and nothing drawn; otherwise the text is drawn with that font |
| DocumentBuilder.SizeRead | at.pkgs.pdf.builder/src/at/pkgs/pdf/builder/DocumentBuilder.java:104-127 | a text throws for the missing crop box exactly when none has been read and its page is the current one, and then nothing changes |
| DocumentBuilder.DocumentBuilder.Value | at.pkgs.pdf.builder/src/at/pkgs/pdf/builder/DocumentBuilder.java:156-163 | a Text is drawn as by `text`; any other value throws and changes nothing |
| DocumentBuilder.DocumentBuilder.RegisterAll | at.pkgs.pdf.builder/src/at/pkgs/pdf/builder/DocumentBuilder.java:167-169 | the fonts afterwards are the old ones with each font of the list registered in turn; page, crop box and drawn texts unchanged |
| DocumentBuilder.DocumentBuilder.DrawAll | at.pkgs.pdf.builder/src/at/pkgs/pdf/builder/DocumentBuilder.java:184 | page, crop box, drawn texts and outcome are those of `value` applied to each value in turn, stopping at the first that throws |
| DocumentBuilder.DocumentBuilder.Merge | at.pkgs.pdf.builder/src/at/pkgs/pdf/builder/DocumentBuilder.java:165-186 | every font of the document is registered first; then the values of a sorted copy are drawn in order, stopping at the first that throws; a null list is skipped |
| DocumentBuilder.NewBuilderRefusesPageZero | at.pkgs.pdf.builder/src/at/pkgs/pdf/builder/DocumentBuilder.java:165-186 | on a new builder, a merge whose first value in page order is a Text on page 0 throws before drawing anything |

## Left out

- Floating point: Java `double`/`float` lengths, sizes and ratios are reals, so IEEE rounding is not modelled.
- `Character.toUpperCase` is modelled for ASCII letters and for the two other characters whose upper case is in the Code 39 table (U+0131 and U+017F). Every other character is returned unchanged. This gives the same lookup result, since no other upper case is in the table.
- `String.toCharArray` yields UTF-16 code units; Dafny's `char` is a Unicode scalar value. For a character outside the BMP, the error names the whole character rather than its first surrogate. Java strings may also hold unpaired surrogates, which a Dafny `string` cannot; colour lengths are counted in code units as Java does.
- `Code39.Code39.SetCheckDigit`, `SetMargin`, `SetCharacterGap`, `SetWide` and the `Drawer` steps return nothing: Java's `return this` for call chaining is not modelled. `getName()` ("CODE-39") and the plain getters are fields read directly.
- `Image.OneDimensionalImage`: `getBars()` hands out the live list, so a caller could change it. That aliasing is not modelled; the bars are a value.
- `DocumentBuilder.ParseHex` requires at most seven characters, so `parseInt`'s overflow check is not modelled. Only colours of length 3 or 6 reach it.
- `DocumentBuilder.HexDigit` accepts only the ASCII digits and letters. `Character.digit` also accepts other Unicode digits and full-width letters.
- `DocumentBuilder.SortOrdered` holds only when no page is negative. The comparator is not a total order when the page subtraction wraps. `Collections.sort` may then order differently, or throw "Comparison method violates its general contract"; `SortByPage` (a stable insertion sort) does neither.
- `DocumentBuilder.BuildFont` has no contract of its own. Its colour part is `BuildColor`, with the lemmas above. Its font part is a map lookup, and a missing name gives no base font.
- PDF library calls: `PdfReader`, `PdfStamper`, the crop box, the content byte, `ColumnText` layout, `BaseFont.createFont`, and the `IOException`/`DocumentException` they throw are not modelled. Font files are kept as the model record they come from, and drawing a text is recorded as a placed text.
- `DocumentBuilder.getSize` and `getContent` are modelled only as the page switch and whether a crop box has been read; the box, its height and the content stream belong to the PDF library.
- DocumentBuilder.DocumentBuilder.Text: a page the template does not have is drawn in the model; in Java `getCropBox` and `getOverContent` then fail inside the PDF library. Page 0 on a new builder is modelled: it throws, as Java does.
- The iteration order of a `HashMap` is not modelled. Both property maps are read only by key.
- Null references in the inputs are not modelled. A null text style given to `MutableField` throws `NullPointerException`; `encode(null)` throws it at `value.toCharArray()` (Code39.java:421). A null element of the document's values throws `NullPointerException` inside the comparator once `Collections.sort` compares it; a list holding only that element is not compared, and `value(null)` fails the `instanceof` test and throws `UnsupportedOperationException`. The model's types have no null values.
- `Fields.Formatter`: a `ValueFormatter` is a function from an abstract `Object` to text. Formatter implementations and `Field.parse`/`TextStyle.parse` are not part of this model.
- The providers, the barcode stamper, the Swing bench UI, the launchers and the XML reading of the document model are not part of this model.
