/** The append-only picture of a one-dimensional barcode
    (at.pkgs.barcode.OneDimensionalImage): a running size, the list of bars
    drawn so far with their positions, and a text label. */
module Image {

  /** One drawn bar: where it starts and how long it is. */
  datatype Bar = Bar(position: real, length: real)

  /** One call `draw(isBar, length)`: the history of these calls is the ghost
      view of an image. Spaces are only ever visible as strokes. */
  datatype Stroke = Stroke(isBar: bool, length: real)

  /** The sum of all lengths drawn, bars and spaces alike. */
  function Total(h: seq<Stroke>): real
  {
    if h == [] then 0.0 else Total(h[..|h| - 1]) + h[|h| - 1].length
  }

  /** How many of the strokes are bars. */
  function BarCount(h: seq<Stroke>): nat
  {
    if h == [] then 0 else BarCount(h[..|h| - 1]) + (if h[|h| - 1].isBar then 1 else 0)
  }

  /** The bars an image holds after the strokes `h`, in drawing order: a bar
      stroke becomes a bar that starts where everything drawn before it ends. */
  function Layout(h: seq<Stroke>): seq<Bar>
  {
    if h == [] then []
    else
      var init, last := h[..|h| - 1], h[|h| - 1];
      Layout(init) + (if last.isBar then [Bar(Total(init), last.length)] else [])
  }

  /** Every drawn length is at least zero. */
  predicate NonNegative(h: seq<Stroke>)
  {
    forall i :: 0 <= i < |h| ==> h[i].length >= 0.0
  }

  /** Bars in non-decreasing position order that do not overlap and end
      within `size`. */
  predicate OrderedWithin(bars: seq<Bar>, size: real)
  {
    && (forall k :: 0 <= k < |bars| ==> 0.0 <= bars[k].position)
    && (forall k :: 0 <= k < |bars| - 1 ==> bars[k].position + bars[k].length <= bars[k + 1].position)
    && (|bars| > 0 ==> bars[|bars| - 1].position + bars[|bars| - 1].length <= size)
  }

  lemma {:induction false} TotalAppend(a: seq<Stroke>, b: seq<Stroke>)
    ensures Total(a + b) == Total(a) + Total(b)
    decreases |b|
  {
    if b == [] {
      assert a + b == a;
    } else {
      assert (a + b)[..|a + b| - 1] == a + b[..|b| - 1];
      TotalAppend(a, b[..|b| - 1]);
    }
  }

  lemma {:induction false} BarCountAppend(a: seq<Stroke>, b: seq<Stroke>)
    ensures BarCount(a + b) == BarCount(a) + BarCount(b)
    decreases |b|
  {
    if b == [] {
      assert a + b == a;
    } else {
      assert (a + b)[..|a + b| - 1] == a + b[..|b| - 1];
      BarCountAppend(a, b[..|b| - 1]);
    }
  }

  /** The image holds exactly one bar per bar stroke. */
  lemma {:induction false} LayoutLength(h: seq<Stroke>)
    ensures |Layout(h)| == BarCount(h)
  {
    if h != [] {
      LayoutLength(h[..|h| - 1]);
    }
  }

  /** The bar drawn by the j-th stroke sits at the index given by the number
      of bars before it, starts at the sum of all lengths drawn before it,
      and has the stroke's length. With LayoutLength this pins every bar. */
  lemma {:induction false} LayoutAt(h: seq<Stroke>, j: nat)
    requires j < |h| && h[j].isBar
    ensures BarCount(h[..j]) < |Layout(h)|
    ensures Layout(h)[BarCount(h[..j])] == Bar(Total(h[..j]), h[j].length)
  {
    var init := h[..|h| - 1];
    LayoutLength(init);
    LayoutLength(h);
    if j == |h| - 1 {
      assert h[..j] == init;
    } else {
      assert init[..j] == h[..j];
      LayoutAt(init, j);
      LayoutLength(h[..j + 1]);
      BarCountMonotone(init, j + 1);
      assert h[..j + 1][..j] == h[..j];
    }
  }

  lemma {:induction false} BarCountMonotone(h: seq<Stroke>, n: nat)
    requires n <= |h|
    ensures BarCount(h[..n]) <= BarCount(h)
    decreases |h|
  {
    if n < |h| {
      assert h[..|h| - 1][..n] == h[..n];
      BarCountMonotone(h[..|h| - 1], n);
    } else {
      assert h[..n] == h;
    }
  }

  /** When no negative length was ever drawn, the bars are ordered, do not
      overlap and end within the image's size. */
  lemma {:induction false} LayoutOrdered(h: seq<Stroke>)
    requires NonNegative(h)
    ensures OrderedWithin(Layout(h), Total(h))
  {
    if h != [] {
      var init, last := h[..|h| - 1], h[|h| - 1];
      assert NonNegative(init) by {
        forall i | 0 <= i < |init| ensures init[i].length >= 0.0 {
          assert init[i] == h[i];
        }
      }
      LayoutOrdered(init);
      TotalNonNegative(init);
    }
  }

  lemma {:induction false} TotalNonNegative(h: seq<Stroke>)
    requires NonNegative(h)
    ensures Total(h) >= 0.0
  {
    if h != [] {
      var init := h[..|h| - 1];
      assert NonNegative(init) by {
        forall i | 0 <= i < |init| ensures init[i].length >= 0.0 {
          assert init[i] == h[i];
        }
      }
      TotalNonNegative(init);
    }
  }

  /** `draw` checks nothing: after a negative space the next bar starts
      before the previous one. */
  lemma NegativeLengthBreaksOrder()
    ensures var h := [Stroke(true, 1.0), Stroke(false, -5.0), Stroke(true, 1.0)];
            Layout(h) == [Bar(0.0, 1.0), Bar(-4.0, 1.0)] && !OrderedWithin(Layout(h), Total(h))
  {
    var h := [Stroke(true, 1.0), Stroke(false, -5.0), Stroke(true, 1.0)];
    assert h[..2][..1] == h[..1] && h[..1][..0] == [];
    assert Total(h[..1]) == 1.0 && Layout(h[..1]) == [Bar(0.0, 1.0)];
    assert Total(h[..2]) == -4.0 && Layout(h[..2]) == [Bar(0.0, 1.0)];
  }

  class OneDimensionalImage {
    var size: real
    var bars: seq<Bar>
    var text: string
    /** Every `draw` call made so far, in order. */
    ghost var strokes: seq<Stroke>

    /** The running size and the bars are exactly what the strokes drawn
        so far produce. */
    ghost predicate Valid()
      reads this
    {
      size == Total(strokes) && bars == Layout(strokes)
    }

    constructor ()
      ensures Valid()
      ensures size == 0.0 && bars == [] && text == [] && strokes == []
    {
      size := 0.0;
      bars := [];
      text := [];
      strokes := [];
    }

    /** Draws a bar or a space of the given length; the length is not checked. */
    method Draw(isBar: bool, length: real)
      requires Valid()
      modifies this
      ensures Valid()
      ensures strokes == old(strokes) + [Stroke(isBar, length)]
      ensures size == old(size) + length
      ensures bars == if isBar then old(bars) + [Bar(old(size), length)] else old(bars)
      ensures text == old(text)
    {
      if isBar {
        bars := bars + [Bar(size, length)];
      }
      size := size + length;
      strokes := strokes + [Stroke(isBar, length)];
      assert strokes[..|strokes| - 1] == old(strokes);
    }

    /** Appends one character to the label; size and bars stay as they are. */
    method Text(character: char)
      requires Valid()
      modifies this
      ensures Valid()
      ensures text == old(text) + [character]
      ensures size == old(size) && bars == old(bars) && strokes == old(strokes)
    {
      text := text + [character];
    }
  }
}
