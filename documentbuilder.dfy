/** The logic of at.pkgs.pdf.builder.DocumentBuilder that does not belong to
    the PDF library: how a colour string becomes the three channels of a
    font colour, and in which order `merge` registers fonts and draws
    values. What the library does with a font or a text is not modelled;
    the builder records each text it draws, with its font, in `placed`. */
module DocumentBuilder {
  import opened Wrappers
  import DocumentModel

  /** Why `merge` stops: `Integer.parseInt` refused a colour string (a
      NumberFormatException), a value is not a Text (an
      UnsupportedOperationException), or no crop box has been read yet, so
      `getSize(page).getHeight()` dereferences null (a
      NullPointerException). */
  datatype BuildError = NumberFormat(input: string) | Unsupported | MissingSize

  /** A font loaded by `BaseFont.createFont(file, encoding, embedded)`,
      known here by those arguments. */
  datatype BaseFont = BaseFont(file: Option<string>, encoding: Option<string>, embedded: bool)

  function CreateFont(model: DocumentModel.Font): BaseFont
  {
    BaseFont(model.file, model.encoding, model.embeded)
  }

  /** The three `int` arguments of `Font.setColor`, as 32-bit words. */
  datatype Rgb = Rgb(red: bv32, green: bv32, blue: bv32)

  /** The font `buildFont` returns: the registered base font (null when no
      font has the name), the size, and the colour when one was set. */
  datatype PdfFont = PdfFont(base: Option<BaseFont>, size: real, color: Option<Rgb>)

  // ----- Colours -----

  predicate IsHexDigit(ch: char)
  {
    '0' <= ch <= '9' || 'a' <= ch <= 'f' || 'A' <= ch <= 'F'
  }

  /** The value of a hexadecimal digit from its distance to '0', 'a' or
      'A'. */
  function DigitValue(ch: char): int
  {
    if '0' <= ch <= '9' then ch as int - '0' as int
    else if 'a' <= ch <= 'f' then ch as int - 'a' as int + 10
    else ch as int - 'A' as int + 10
  }

  /** `Character.digit(ch, 16)` on ASCII: the value of a hexadecimal digit. */
  function HexDigit(ch: char): (r: Option<bv32>)
    ensures r.Some? <==> IsHexDigit(ch)
    ensures r.Some? ==> r.value < 16
    ensures r.Some? ==> r.value as int == DigitValue(ch)
  {
    match ch
    case '0' => Some(0) case '1' => Some(1) case '2' => Some(2) case '3' => Some(3)
    case '4' => Some(4) case '5' => Some(5) case '6' => Some(6) case '7' => Some(7)
    case '8' => Some(8) case '9' => Some(9)
    case 'a' => Some(10) case 'b' => Some(11) case 'c' => Some(12)
    case 'd' => Some(13) case 'e' => Some(14) case 'f' => Some(15)
    case 'A' => Some(10) case 'B' => Some(11) case 'C' => Some(12)
    case 'D' => Some(13) case 'E' => Some(14) case 'F' => Some(15)
    case _ => None
  }

  /** One step of reading a number in base 16: the digits so far times
      16, plus the next digit. */
  function Shift(m: bv32, d: bv32): bv32
  {
    m * 16 + d
  }

  /** The value of a string of hexadecimal digits, most significant first,
      or None when one character is not a digit. Seven digits fit in 28
      bits, so nothing wraps. */
  function Magnitude(digits: string): Option<bv32>
    requires |digits| <= 7
  {
    if digits == [] then Some(0)
    else
      match (Magnitude(digits[..|digits| - 1]), HexDigit(digits[|digits| - 1]))
      case (Some(m), Some(d)) => Some(Shift(m, d))
      case _ => None
  }

  /** `Integer.parseInt(s, 16)` for the short strings `buildFont` passes: an
      optional sign followed by at least one hexadecimal digit, the value
      negated in 32-bit arithmetic after a '-'; anything else is refused. */
  function ParseHex(s: string): Result<bv32, BuildError>
    requires |s| <= 7
  {
    if s == [] then Err(NumberFormat(s))
    else if s[0] == '-' || s[0] == '+' then
      if |s| == 1 then Err(NumberFormat(s))
      else
        match Magnitude(s[1..])
        case None => Err(NumberFormat(s))
        case Some(m) => Ok(if s[0] == '-' then 0 - m else m)
    else
      match Magnitude(s)
      case None => Err(NumberFormat(s))
      case Some(m) => Ok(m)
  }

  predicate AllHexDigits(digits: string)
  {
    forall i :: 0 <= i < |digits| ==> IsHexDigit(digits[i])
  }

  /** What `Integer.parseInt(s, 16)` accepts: an optional sign, then one
      hexadecimal digit or more. */
  predicate IsHexNumeral(s: string)
  {
    if |s| > 0 && (s[0] == '-' || s[0] == '+') then |s| > 1 && AllHexDigits(s[1..])
    else |s| > 0 && AllHexDigits(s)
  }

  /** The channels of a three-digit colour, as the source computes them from
      the parsed value. Java's `>>` is an arithmetic shift, but every
      shifted operand is masked to non-negative first, so it agrees with
      the logical shift of bit-vectors. */
  function ShortColor(v: bv32): Rgb
  {
    Rgb(((v & 0xF00) >> 4) | ((v & 0xF00) >> 8),
        (v & 0x0F0) | ((v & 0x0F0) >> 4),
        ((v & 0x00F) << 4) | (v & 0x00F))
  }

  /** The channels of a six-digit colour: the three low bytes, high first. */
  function LongColor(v: bv32): Rgb
  {
    Rgb((v & 0xFF0000) >> 16, (v & 0x00FF00) >> 8, v & 0x0000FF)
  }

  /** `String.length()`: the number of UTF-16 code units, two for each
      character outside the Basic Multilingual Plane. */
  function Utf16Length(s: string): (n: nat)
    ensures |s| <= n <= 2 * |s|
  {
    if s == [] then 0
    else Utf16Length(s[..|s| - 1]) + (if s[|s| - 1] as int > 0xFFFF then 2 else 1)
  }

  /** A string of characters of the Basic Multilingual Plane has one code
      unit per character, and only such a string has. */
  lemma {:induction false} Utf16LengthBmp(s: string)
    ensures Utf16Length(s) == |s| <==> forall i :: 0 <= i < |s| ==> s[i] as int <= 0xFFFF
  {
    if s != [] {
      var init := s[..|s| - 1];
      Utf16LengthBmp(init);
      assert forall i :: 0 <= i < |init| ==> init[i] == s[i];
    }
  }

  /** Hexadecimal digits are all in the Basic Multilingual Plane. */
  lemma HexDigitsBmp(s: string)
    requires AllHexDigits(s)
    ensures Utf16Length(s) == |s|
  {
    assert forall i :: 0 <= i < |s| ==> IsHexDigit(s[i]);
    Utf16LengthBmp(s);
  }

  /** The colour branch of `buildFont`: no colour for a null string or one
      whose length in UTF-16 code units is neither 3 nor 6; otherwise the string is parsed and
      its channels are taken apart, and a parse failure propagates. Every
      channel set is a byte. */
  function BuildColor(color: Option<string>): (r: Result<Option<Rgb>, BuildError>)
    ensures r.Ok? && r.value.Some? ==>
      r.value.value.red < 256 && r.value.value.green < 256 && r.value.value.blue < 256
  {
    match color
    case None => Ok(None)
    case Some(s) =>
      if Utf16Length(s) == 3 then
        match ParseHex(s)
        case Ok(v) => Ok(Some(ShortColor(v)))
        case Err(e) => Err(e)
      else if Utf16Length(s) == 6 then
        match ParseHex(s)
        case Ok(v) => Ok(Some(LongColor(v)))
        case Err(e) => Err(e)
      else Ok(None)
  }

  /** `buildFont(name, size, color)`: the font registered under `name`, the
      size, and the colour of BuildColor. */
  function BuildFont(fonts: map<Option<string>, BaseFont>, name: Option<string>, size: real, color: Option<string>)
    : Result<PdfFont, BuildError>
  {
    match BuildColor(color)
    case Err(e) => Err(e)
    case Ok(c) => Ok(PdfFont(if name in fonts then Some(fonts[name]) else None, size, c))
  }

  lemma {:induction false} MagnitudeAccepts(digits: string)
    requires |digits| <= 7
    ensures Magnitude(digits).Some? <==> AllHexDigits(digits)
  {
    if digits != [] {
      var init := digits[..|digits| - 1];
      MagnitudeAccepts(init);
      assert forall i :: 0 <= i < |init| ==> init[i] == digits[i];
    }
  }

  /** The parser refuses exactly the strings that are not hexadecimal
      numerals. */
  lemma ParseHexAccepts(s: string)
    requires |s| <= 7
    ensures ParseHex(s).Ok? <==> IsHexNumeral(s)
  {
    if |s| > 0 && (s[0] == '-' || s[0] == '+') {
      MagnitudeAccepts(s[1..]);
    } else {
      MagnitudeAccepts(s);
    }
  }

  /** The value of a hexadecimal digit character. */
  function Nibble(ch: char): (r: bv32)
    requires IsHexDigit(ch)
    ensures r < 16
  {
    HexDigit(ch).value
  }

  /** One more digit of a prefix: the value so far times 16, plus the digit. */
  lemma MagnitudeStep(s: string, k: nat)
    requires k < |s| <= 7 && AllHexDigits(s)
    ensures Magnitude(s[..k]).Some?
    ensures Magnitude(s[..k + 1]) == Some(Shift(Magnitude(s[..k]).value, Nibble(s[k])))
  {
    assert s[..k + 1][..k] == s[..k];
    MagnitudeAccepts(s[..k]);
  }

  lemma ShortChannels(d0: bv32, d1: bv32, d2: bv32)
    requires d0 < 16 && d1 < 16 && d2 < 16
    ensures ShortColor(Shift(Shift(Shift(0, d0), d1), d2)) == Rgb(d0 * 17, d1 * 17, d2 * 17)
  {
  }

  lemma LongChannels(d0: bv32, d1: bv32, d2: bv32, d3: bv32, d4: bv32, d5: bv32)
    requires d0 < 16 && d1 < 16 && d2 < 16 && d3 < 16 && d4 < 16 && d5 < 16
    ensures LongColor(Shift(Shift(Shift(Shift(Shift(Shift(0, d0), d1), d2), d3), d4), d5)) ==
      Rgb(d0 * 16 + d1, d2 * 16 + d3, d4 * 16 + d5)
  {
  }

  /** A three-digit colour sets each channel to its digit repeated, that
      is 17 times the digit: "abc" becomes 0xaa, 0xbb, 0xcc. */
  lemma ShortColorChannels(s: string)
    requires |s| == 3 && AllHexDigits(s)
    ensures BuildColor(Some(s)) == Ok(Some(Rgb(Nibble(s[0]) * 17, Nibble(s[1]) * 17, Nibble(s[2]) * 17)))
  {
    HexDigitsBmp(s);
    var v := ShortValue(s);
    ParseDigits(s, v);
    ShortChannels(Nibble(s[0]), Nibble(s[1]), Nibble(s[2]));
  }

  /** A six-digit colour sets the channels to its three bytes, high first. */
  lemma LongColorChannels(s: string)
    requires |s| == 6 && AllHexDigits(s)
    ensures BuildColor(Some(s)) == Ok(Some(Rgb(
      Nibble(s[0]) * 16 + Nibble(s[1]), Nibble(s[2]) * 16 + Nibble(s[3]), Nibble(s[4]) * 16 + Nibble(s[5]))))
  {
    HexDigitsBmp(s);
    var v := LongValue(s);
    ParseDigits(s, v);
    LongChannels(Nibble(s[0]), Nibble(s[1]), Nibble(s[2]), Nibble(s[3]), Nibble(s[4]), Nibble(s[5]));
  }

  /** A string of digits parses to its magnitude. */
  lemma ParseDigits(s: string, v: bv32)
    requires 0 < |s| <= 7 && AllHexDigits(s) && Magnitude(s) == Some(v)
    ensures ParseHex(s) == Ok(v)
  {
    assert IsHexDigit(s[0]);
  }

  /** The value of the first three digits of a longer string. */
  lemma PrefixValue(s: string) returns (v: bv32)
    requires 3 <= |s| <= 7 && AllHexDigits(s)
    ensures v == Shift(Shift(Shift(0, Nibble(s[0])), Nibble(s[1])), Nibble(s[2]))
    ensures Magnitude(s[..3]) == Some(v)
  {
    assert s[..0] == [];
    MagnitudeStep(s, 0);
    MagnitudeStep(s, 1);
    MagnitudeStep(s, 2);
    v := Magnitude(s[..3]).value;
  }

  /** The value of three digits. */
  lemma ShortValue(s: string) returns (v: bv32)
    requires |s| == 3 && AllHexDigits(s)
    ensures v == Shift(Shift(Shift(0, Nibble(s[0])), Nibble(s[1])), Nibble(s[2]))
    ensures Magnitude(s) == Some(v)
  {
    v := PrefixValue(s);
    assert s[..3] == s;
  }

  /** The value of six digits. */
  lemma LongValue(s: string) returns (v: bv32)
    requires |s| == 6 && AllHexDigits(s)
    ensures v == Shift(Shift(Shift(Shift(Shift(Shift(0, Nibble(s[0])), Nibble(s[1])), Nibble(s[2])),
      Nibble(s[3])), Nibble(s[4])), Nibble(s[5]))
    ensures Magnitude(s) == Some(v)
  {
    var m3 := PrefixValue(s);
    assert Magnitude(s[..4]) == Some(Shift(m3, Nibble(s[3]))) by {
      MagnitudeStep(s, 3);
    }
    assert Magnitude(s[..5]) == Some(Shift(Shift(m3, Nibble(s[3])), Nibble(s[4]))) by {
      MagnitudeStep(s, 4);
    }
    assert s[..6] == s;
    MagnitudeStep(s, 5);
    v := Magnitude(s).value;
  }

  /** No colour is set exactly when the string is null or its length is
      neither 3 nor 6. */
  lemma ColorUnset(color: Option<string>)
    ensures BuildColor(color) == Ok(None) <==>
      color.None? || (Utf16Length(color.value) != 3 && Utf16Length(color.value) != 6)
  {
  }

  /** A colour string of length 3 or 6, in UTF-16 code units, that is not a hexadecimal numeral
      makes `buildFont` throw. */
  lemma ColorRejected(s: string)
    requires Utf16Length(s) == 3 || Utf16Length(s) == 6
    ensures BuildColor(Some(s)).Err? <==> !IsHexNumeral(s)
    ensures BuildColor(Some(s)).Err? ==> BuildColor(Some(s)).error == NumberFormat(s)
  {
    ParseHexAccepts(s);
  }

  /** `parseInt` accepts a sign: "-FF" is -255, whose 32-bit pattern the
      channel masks take apart like any other value. */
  lemma SignedColor()
    ensures BuildColor(Some("-FF")) == Ok(Some(Rgb(0xFF, 0x00, 0x11)))
  {
    var s := "-FF";
    Utf16LengthBmp(s);
    assert s[1..] == "FF" && "FF"[..1] == "F" && "F"[..0] == [];
  }

  /** Lengths are Java's: an emoji and a digit make three code units,
      so the pair is parsed and refused; an emoji and two digits make four,
      so no colour is set. */
  lemma SupplementaryColors()
    ensures BuildColor(Some("\U{1F600}0")) == Err(NumberFormat("\U{1F600}0"))
    ensures BuildColor(Some("\U{1F600}AB")) == Ok(None)
  {
    assert "\U{1F600}0"[..1] == "\U{1F600}" && "\U{1F600}"[..0] == [];
    assert "\U{1F600}AB"[..2] == "\U{1F600}A" && "\U{1F600}A"[..1] == "\U{1F600}";
  }

  // ----- Ordering of values -----

  /** Java's `int` subtraction: the difference wrapped into 32 bits. */
  function Wrap32(x: int): DocumentModel.Int32
  {
    (x + 0x8000_0000) % 0x1_0000_0000 - 0x8000_0000
  }

  /** The comparator `merge` sorts with: `left.getPage() - right.getPage()`
      in `int` arithmetic. */
  function ComparePages(left: DocumentModel.Value, right: DocumentModel.Value): DocumentModel.Int32
  {
    Wrap32(left.Page() - right.Page())
  }

  /** The comparator calls two values equal exactly when their pages are
      equal, whatever the pages. */
  lemma CompareEqual(left: DocumentModel.Value, right: DocumentModel.Value)
    ensures ComparePages(left, right) == 0 <==> left.Page() == right.Page()
  {
  }

  /** For pages that are not negative the subtraction does not wrap, and
      the comparator orders values by page. */
  lemma CompareByPage(left: DocumentModel.Value, right: DocumentModel.Value)
    requires 0 <= left.Page() && 0 <= right.Page()
    ensures ComparePages(left, right) == left.Page() - right.Page()
  {
  }

  /** Far apart pages wrap: the comparator puts the value on the smallest
      `int` page after a value on page 1. */
  lemma CompareWraps()
    ensures ComparePages(DocumentModel.OtherValue(-0x8000_0000), DocumentModel.OtherValue(1)) > 0
  {
  }

  /** Inserts `x` into `sorted` after every value the comparator does not
      place after `x`: a stable insertion. */
  function Insert(sorted: seq<DocumentModel.Value>, x: DocumentModel.Value): (r: seq<DocumentModel.Value>)
    ensures |r| == |sorted| + 1
    ensures r[|sorted|] == x || (sorted != [] && r[|sorted|] == sorted[|sorted| - 1])
  {
    if sorted == [] then [x]
    else if ComparePages(sorted[|sorted| - 1], x) > 0 then
      Insert(sorted[..|sorted| - 1], x) + [sorted[|sorted| - 1]]
    else sorted + [x]
  }

  /** `Collections.sort(values, comparator)`, as a stable insertion sort. */
  function SortByPage(values: seq<DocumentModel.Value>): (r: seq<DocumentModel.Value>)
    ensures |r| == |values|
  {
    if values == [] then []
    else Insert(SortByPage(values[..|values| - 1]), values[|values| - 1])
  }

  /** Non-decreasing pages. */
  predicate PageOrdered(values: seq<DocumentModel.Value>)
  {
    forall i :: 0 <= i < |values| - 1 ==> values[i].Page() <= values[i + 1].Page()
  }

  predicate NonNegativePages(values: seq<DocumentModel.Value>)
  {
    forall i :: 0 <= i < |values| ==> values[i].Page() >= 0
  }

  /** The values on page `p`, in order. */
  function OnPage(values: seq<DocumentModel.Value>, p: int): seq<DocumentModel.Value>
  {
    if values == [] then []
    else OnPage(values[..|values| - 1], p) + (if values[|values| - 1].Page() == p then [values[|values| - 1]] else [])
  }

  lemma {:induction false} InsertPermutes(sorted: seq<DocumentModel.Value>, x: DocumentModel.Value)
    ensures multiset(Insert(sorted, x)) == multiset(sorted) + multiset{x}
  {
    if sorted != [] && ComparePages(sorted[|sorted| - 1], x) > 0 {
      var init, last := sorted[..|sorted| - 1], sorted[|sorted| - 1];
      InsertPermutes(init, x);
      assert sorted == init + [last];
    }
  }

  /** Sorting keeps every value, as often as it occurs. */
  lemma {:induction false} SortPermutes(values: seq<DocumentModel.Value>)
    ensures multiset(SortByPage(values)) == multiset(values)
  {
    if values != [] {
      var init := values[..|values| - 1];
      SortPermutes(init);
      InsertPermutes(SortByPage(init), values[|values| - 1]);
      assert values == init + [values[|values| - 1]];
    }
  }

  lemma {:induction false} InsertOrdered(sorted: seq<DocumentModel.Value>, x: DocumentModel.Value)
    requires PageOrdered(sorted) && NonNegativePages(sorted) && x.Page() >= 0
    ensures PageOrdered(Insert(sorted, x))
  {
    if sorted != [] {
      var init, last := sorted[..|sorted| - 1], sorted[|sorted| - 1];
      CompareByPage(last, x);
      if ComparePages(last, x) > 0 {
        assert PageOrdered(init) && NonNegativePages(init) by {
          forall i | 0 <= i < |init| ensures init[i] == sorted[i] {
          }
        }
        InsertOrdered(init, x);
      }
    }
  }

  lemma {:induction false} SortNonNegative(values: seq<DocumentModel.Value>)
    requires NonNegativePages(values)
    ensures NonNegativePages(SortByPage(values))
  {
    SortPermutes(values);
    forall i | 0 <= i < |SortByPage(values)| ensures SortByPage(values)[i].Page() >= 0 {
      assert SortByPage(values)[i] in multiset(values);
    }
  }

  /** With pages that are not negative, the sorted values come in
      non-decreasing page order. */
  lemma {:induction false} SortOrdered(values: seq<DocumentModel.Value>)
    requires NonNegativePages(values)
    ensures PageOrdered(SortByPage(values))
  {
    if values != [] {
      var init := values[..|values| - 1];
      assert NonNegativePages(init) by {
        forall i | 0 <= i < |init| ensures init[i] == values[i] {
        }
      }
      SortOrdered(init);
      SortNonNegative(init);
      InsertOrdered(SortByPage(init), values[|values| - 1]);
    }
  }

  lemma {:induction false} OnPageAppend(a: seq<DocumentModel.Value>, b: seq<DocumentModel.Value>, p: int)
    ensures OnPage(a + b, p) == OnPage(a, p) + OnPage(b, p)
    decreases |b|
  {
    if b == [] {
      assert a + b == a;
    } else {
      assert (a + b)[..|a + b| - 1] == a + b[..|b| - 1];
      OnPageAppend(a, b[..|b| - 1], p);
    }
  }

  lemma OnPageSingle(x: DocumentModel.Value, p: int)
    ensures OnPage([x], p) == if x.Page() == p then [x] else []
  {
    assert [x][..0] == [];
  }

  /** Two values on different pages can change places without changing
      what any one page holds. */
  lemma SwapOnPage(a: DocumentModel.Value, b: DocumentModel.Value, p: int)
    requires a.Page() != b.Page()
    ensures OnPage([a], p) + OnPage([b], p) == OnPage([b], p) + OnPage([a], p)
  {
    OnPageSingle(a, p);
    OnPageSingle(b, p);
  }

  lemma {:induction false} InsertOnPage(sorted: seq<DocumentModel.Value>, x: DocumentModel.Value, p: int)
    ensures OnPage(Insert(sorted, x), p) == OnPage(sorted, p) + OnPage([x], p)
  {
    OnPageSingle(x, p);
    if sorted == [] {
      assert [] + [x] == [x];
    } else {
      var init, last := sorted[..|sorted| - 1], sorted[|sorted| - 1];
      if ComparePages(last, x) > 0 {
        calc {
          OnPage(Insert(sorted, x), p);
          { OnPageAppend(Insert(init, x), [last], p); }
          OnPage(Insert(init, x), p) + OnPage([last], p);
          { InsertOnPage(init, x, p); }
          OnPage(init, p) + OnPage([x], p) + OnPage([last], p);
          { CompareEqual(last, x); SwapOnPage(last, x, p); }
          OnPage(init, p) + OnPage([last], p) + OnPage([x], p);
          { OnPageAppend(init, [last], p); assert sorted == init + [last]; }
          OnPage(sorted, p) + OnPage([x], p);
        }
      } else {
        OnPageAppend(sorted, [x], p);
      }
    }
  }

  /** Sorting is stable: the values on any one page keep their input order. */
  lemma {:induction false} SortStable(values: seq<DocumentModel.Value>, p: int)
    ensures OnPage(SortByPage(values), p) == OnPage(values, p)
  {
    if values != [] {
      var init, last := values[..|values| - 1], values[|values| - 1];
      SortStable(init, p);
      InsertOnPage(SortByPage(init), last, p);
      OnPageSingle(last, p);
    }
  }

  // ----- The builder -----

  /** One text drawn by `text`: what it hands to ColumnText. */
  datatype Placed = Placed(text: DocumentModel.Text, font: PdfFont)

  /** The part of the builder's state values change: the current page,
      whether a crop box has been read (`size` is not null), and the texts
      drawn so far. */
  datatype Canvas = Canvas(page: DocumentModel.Int32, sized: bool, placed: seq<Placed>)

  /** `setPage(p)` on the canvas `c`: nothing happens when `p` is already
      current; otherwise the crop box of `p` is read. */
  function Switch(c: Canvas, p: DocumentModel.Int32): Canvas
  {
    if c.page == p then c else Canvas(p, true, c.placed)
  }

  /** `value(v)` on the canvas `c`: a Text switches to its page and reads
      the page height, then its font is built and the text drawn; any
      other value is refused. */
  function Step(fonts: map<Option<string>, BaseFont>, c: Canvas, v: DocumentModel.Value)
    : (Canvas, Result<(), BuildError>)
  {
    match v
    case OtherValue(_) => (c, Err(Unsupported))
    case TextValue(t) =>
      var switched := Switch(c, t.page);
      if !switched.sized then (switched, Err(MissingSize))
      else
        match BuildFont(fonts, t.font, t.size, t.color)
        case Err(e) => (switched, Err(e))
        case Ok(f) => (switched.(placed := switched.placed + [Placed(t, f)]), Ok(()))
  }

  /** A Text on the page already current, before any crop box was read,
      throws and changes nothing; a Text on any other page is never refused
      for that reason. */
  lemma SizeRead(fonts: map<Option<string>, BaseFont>, c: Canvas, t: DocumentModel.Text)
    ensures Step(fonts, c, DocumentModel.TextValue(t)).1 == Err(MissingSize)
      <==> !c.sized && t.page == c.page
    ensures !c.sized && t.page == c.page ==> Step(fonts, c, DocumentModel.TextValue(t)).0 == c
  {
  }

  /** A new builder stands on page 0 with no crop box, so a merge whose
      first value in page order is a Text on page 0 throws at once and
      draws nothing. */
  lemma {:induction false} NewBuilderRefusesPageZero(fonts: map<Option<string>, BaseFont>, values: seq<DocumentModel.Value>)
    requires |values| > 0 && values[0].TextValue? && values[0].Page() == 0
    ensures Render(fonts, Canvas(0, false, []), values) == (Canvas(0, false, []), Err(MissingSize))
  {
    var start := Canvas(0, false, []);
    assert values[..1][..0] == [];
    assert Render(fonts, start, values[..1]) == Step(fonts, start, values[0]);
    RenderStops(fonts, start, values, 1);
  }

  /** `value` applied to each of `values` in turn, stopping at the first
      that throws. */
  function Render(fonts: map<Option<string>, BaseFont>, c: Canvas, values: seq<DocumentModel.Value>)
    : (Canvas, Result<(), BuildError>)
  {
    if values == [] then (c, Ok(()))
    else
      var before := Render(fonts, c, values[..|values| - 1]);
      if before.1.Err? then before else Step(fonts, before.0, values[|values| - 1])
  }

  /** Once a value has thrown, later values change nothing. */
  lemma {:induction false} RenderStops(fonts: map<Option<string>, BaseFont>, c: Canvas, values: seq<DocumentModel.Value>, k: nat)
    requires k <= |values| && Render(fonts, c, values[..k]).1.Err?
    ensures Render(fonts, c, values) == Render(fonts, c, values[..k])
    decreases |values| - k
  {
    if k < |values| {
      assert values[..k + 1][..k] == values[..k];
      RenderStops(fonts, c, values, k + 1);
    } else {
      assert values[..k] == values;
    }
  }

  /** When every value is drawn, the texts added are the values' texts in
      the order given, each with a font built from its own name, size and
      colour. */
  lemma {:induction false} RenderDrawsAll(fonts: map<Option<string>, BaseFont>, c: Canvas, values: seq<DocumentModel.Value>)
    requires Render(fonts, c, values).1.Ok?
    ensures var placed := Render(fonts, c, values).0.placed;
      && |placed| == |c.placed| + |values| && placed[..|c.placed|] == c.placed
      && forall i :: 0 <= i < |values| ==>
        values[i] == DocumentModel.TextValue(placed[|c.placed| + i].text) &&
        BuildFont(fonts, values[i].text.font, values[i].text.size, values[i].text.color) ==
          Ok(placed[|c.placed| + i].font)
  {
    if values != [] {
      var init, last := values[..|values| - 1], values[|values| - 1];
      var before := Render(fonts, c, init);
      assert before.1.Ok?;
      RenderDrawsAll(fonts, c, init);
      StepDraws(fonts, before.0, last);
      assert Render(fonts, c, values).0.placed == before.0.placed + [Step(fonts, before.0, last).0.placed[|before.0.placed|]];
      forall i | 0 <= i < |init|
        ensures values[i] == init[i]
      {
      }
    }
  }

  /** A value that does not throw is a Text, drawn once with the font built
      from its own name, size and colour. */
  lemma StepDraws(fonts: map<Option<string>, BaseFont>, c: Canvas, v: DocumentModel.Value)
    requires Step(fonts, c, v).1.Ok?
    ensures v.TextValue?
    ensures var placed := Step(fonts, c, v).0.placed;
      && placed == c.placed + [placed[|c.placed|]] && placed[|c.placed|].text == v.text
      && BuildFont(fonts, v.text.font, v.text.size, v.text.color) == Ok(placed[|c.placed|].font)
  {
  }

  /** `fonts` after `font(m)` for each `m` of `list` in turn. */
  function RegisterFonts(fonts: map<Option<string>, BaseFont>, list: seq<DocumentModel.Font>): map<Option<string>, BaseFont>
  {
    if list == [] then fonts
    else RegisterFonts(fonts, list[..|list| - 1])[list[|list| - 1].name := CreateFont(list[|list| - 1])]
  }

  /** The last font of `list` named `name`. */
  function LastNamed(list: seq<DocumentModel.Font>, name: Option<string>): (r: Option<DocumentModel.Font>)
    ensures r.Some? ==> r.value in list && r.value.name == name
  {
    if list == [] then None
    else if list[|list| - 1].name == name then Some(list[|list| - 1])
    else LastNamed(list[..|list| - 1], name)
  }

  /** After registering a list, a name maps to the font made from the last
      entry of that name, and names the list does not mention keep what
      they had. */
  lemma {:induction false} RegisterFontsLookup(fonts: map<Option<string>, BaseFont>, list: seq<DocumentModel.Font>, name: Option<string>)
    ensures name in RegisterFonts(fonts, list) <==> name in fonts || LastNamed(list, name).Some?
    ensures LastNamed(list, name).Some? ==> RegisterFonts(fonts, list)[name] == CreateFont(LastNamed(list, name).value)
    ensures LastNamed(list, name).None? && name in fonts ==> RegisterFonts(fonts, list)[name] == fonts[name]
  {
    if list != [] {
      RegisterFontsLookup(fonts, list[..|list| - 1], name);
    }
  }

  /** The values `merge` draws: a sorted copy of the document's values, or
      none when the list is null. The document itself is not reordered. */
  function MergeOrder(model: DocumentModel.Document): seq<DocumentModel.Value>
  {
    if model.values.Some? then SortByPage(model.values.value) else []
  }

  function FontsOf(model: DocumentModel.Document): seq<DocumentModel.Font>
  {
    if model.fonts.Some? then model.fonts.value else []
  }

  class DocumentBuilder {
    /** The registered fonts by name. */
    var fonts: map<Option<string>, BaseFont>
    /** The page the crop box and the content stream were taken from; 0
        before any. */
    var page: DocumentModel.Int32
    /** Whether a crop box has been read: `size` is null until the first
        switch to a page other than 0. */
    var sized: bool
    /** The texts drawn so far, in order. */
    var placed: seq<Placed>

    constructor ()
      ensures fonts == map[] && page == 0 && !sized && placed == []
    {
      fonts := map[];
      page := 0;
      sized := false;
      placed := [];
    }

    /** `font(model)`: registers the font under its name, replacing any
        font of the same name. */
    method Font(model: DocumentModel.Font)
      modifies this
      ensures fonts == old(fonts)[model.name := CreateFont(model)]
      ensures page == old(page) && sized == old(sized) && placed == old(placed)
    {
      fonts := fonts[model.name := CreateFont(model)];
    }

    /** `setPage(page)`: switches to `p` and reads its crop box, unless `p`
        is already current. */
    method SetPage(p: DocumentModel.Int32)
      modifies this
      ensures Canvas(page, sized, placed) == Switch(Canvas(old(page), old(sized), old(placed)), p)
      ensures page == p && fonts == old(fonts) && placed == old(placed)
      ensures sized == (old(sized) || old(page) != p)
    {
      if page == p {
        return;
      }
      sized := true;
      page := p;
    }

    /** `text(model)`: switches to the text's page and reads its height,
        builds its font, and draws it. Without a crop box the height read
        throws; a colour that does not parse throws after the page
        switch. */
    method Text(model: DocumentModel.Text) returns (r: Result<(), BuildError>)
      modifies this
      ensures fonts == old(fonts)
      ensures (Canvas(page, sized, placed), r) == Step(fonts, Canvas(old(page), old(sized), old(placed)), DocumentModel.TextValue(model))
    {
      SetPage(model.page);
      if !sized {
        return Err(MissingSize);
      }
      var font := BuildFont(fonts, model.font, model.size, model.color);
      if font.Err? {
        return Err(font.error);
      }
      SetPage(model.page);
      placed := placed + [Placed(model, font.value)];
      r := Ok(());
    }

    /** `value(v)`: draws a Text and throws on anything else. */
    method Value(v: DocumentModel.Value) returns (r: Result<(), BuildError>)
      modifies this
      ensures fonts == old(fonts)
      ensures (Canvas(page, sized, placed), r) == Step(fonts, Canvas(old(page), old(sized), old(placed)), v)
    {
      if v.TextValue? {
        r := Text(v.text);
        return;
      }
      r := Err(Unsupported);
    }

    /** `font(m)` for each `m` of `list` in turn. */
    method RegisterAll(list: seq<DocumentModel.Font>)
      modifies this
      ensures fonts == RegisterFonts(old(fonts), list)
      ensures page == old(page) && sized == old(sized) && placed == old(placed)
    {
      for i := 0 to |list|
        invariant fonts == RegisterFonts(old(fonts), list[..i])
        invariant page == old(page) && sized == old(sized) && placed == old(placed)
      {
        Font(list[i]);
        assert list[..i + 1][..i] == list[..i];
      }
      assert list[..|list|] == list;
    }

    /** `value(v)` for each `v` of `values` in turn, until one throws. */
    method DrawAll(values: seq<DocumentModel.Value>) returns (r: Result<(), BuildError>)
      modifies this
      ensures fonts == old(fonts)
      ensures (Canvas(page, sized, placed), r) == Render(fonts, Canvas(old(page), old(sized), old(placed)), values)
    {
      ghost var start := Canvas(page, sized, placed);
      r := Ok(());
      for i := 0 to |values|
        invariant fonts == old(fonts)
        invariant (Canvas(page, sized, placed), r) == Render(fonts, start, values[..i])
        invariant r.Ok?
      {
        assert values[..i + 1][..i] == values[..i];
        r := Value(values[i]);
        if r.Err? {
          RenderStops(fonts, start, values, i + 1);
          return;
        }
      }
      assert values[..|values|] == values;
    }

    /** `merge(model)`: registers every font of the document first, then
        draws its values in the order of a sorted copy, stopping at the
        first that throws. */
    method Merge(model: DocumentModel.Document) returns (r: Result<(), BuildError>)
      modifies this
      ensures fonts == RegisterFonts(old(fonts), FontsOf(model))
      ensures (Canvas(page, sized, placed), r) == Render(fonts, Canvas(old(page), old(sized), old(placed)), MergeOrder(model))
    {
      if model.fonts.Some? {
        RegisterAll(model.fonts.value);
      }
      r := Ok(());
      if model.values.Some? {
        var values := SortByPage(model.values.value);
        r := DrawAll(values);
      }
    }
  }
}
