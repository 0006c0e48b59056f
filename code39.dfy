/** The Code 39 encoder (at.pkgs.barcode.Code39): the four pattern symbols,
    the bar and space builders that mark slots of a nine-slot pattern wide,
    the 44-entry character table with its two lookups, the modulo-43 check
    character, the drawer that feeds an image, and `encode`. */
module Code39 {
  import opened Wrappers
  import opened Image
  import Iso16388

  // ---------------------------------------------------------------------
  // Symbols

  /** One element of a character pattern. */
  datatype Symbol = NarrowSpace | NarrowBar | WideSpace | WideBar
  {
    predicate IsBar()
    {
      this == NarrowBar || this == WideBar
    }

    predicate IsSpace()
    {
      !IsBar()
    }

    predicate IsNarrow()
    {
      this == NarrowSpace || this == NarrowBar
    }

    predicate IsWide()
    {
      !IsNarrow()
    }
  }

  /** Every character pattern has nine slots. */
  const PatternLength: nat := 9

  // ---------------------------------------------------------------------
  // Pattern builders

  /** The bar rules: each names the bar groups (slot `2 * mark`) made wide. */
  datatype BarPattern = Bar1 | Bar2 | Bar3 | Bar4 | Bar5 | Bar6 | Bar7 | Bar8 | Bar9 | BarA | BarB
  {
    /** Sets the slot `2 * mark` of every mark of this rule to a wide bar. */
    method Build(symbols: array<Symbol>)
      requires symbols.Length == PatternLength
      modifies symbols
      ensures symbols[..] == MarkBars(old(symbols[..]), BarMarks(this))
    {
      var marks := BarMarks(this);
      for k := 0 to |marks|
        invariant symbols[..] == MarkBars(old(symbols[..]), marks[..k])
      {
        symbols[marks[k] * 2] := WideBar;
        assert marks[..k + 1][..k] == marks[..k];
      }
      assert marks[..|marks|] == marks;
    }
  }

  /** The space rules: each names the space groups (slot `2 * mark + 1`) made wide. */
  datatype SpacePattern = Space0 | Space1 | Space2 | Space3 | SpaceA | SpaceB | SpaceC | SpaceD
  {
    /** Sets the slot `2 * mark + 1` of every mark of this rule to a wide space. */
    method Build(symbols: array<Symbol>)
      requires symbols.Length == PatternLength
      modifies symbols
      ensures symbols[..] == MarkSpaces(old(symbols[..]), SpaceMarks(this))
    {
      var marks := SpaceMarks(this);
      for k := 0 to |marks|
        invariant symbols[..] == MarkSpaces(old(symbols[..]), marks[..k])
      {
        symbols[marks[k] * 2 + 1] := WideSpace;
        assert marks[..k + 1][..k] == marks[..k];
      }
      assert marks[..|marks|] == marks;
    }
  }

  function BarMarks(b: BarPattern): (marks: seq<nat>)
    ensures forall k :: 0 <= k < |marks| ==> 2 * marks[k] < PatternLength
  {
    match b
    case Bar1 => [0, 4]
    case Bar2 => [1, 4]
    case Bar3 => [1, 0]
    case Bar4 => [2, 4]
    case Bar5 => [2, 0]
    case Bar6 => [2, 1]
    case Bar7 => [3, 4]
    case Bar8 => [3, 0]
    case Bar9 => [3, 1]
    case BarA => [3, 2]
    case BarB => []
  }

  function SpaceMarks(s: SpacePattern): (marks: seq<nat>)
    ensures forall k :: 0 <= k < |marks| ==> 2 * marks[k] + 1 < PatternLength
  {
    match s
    case Space0 => [1]
    case Space1 => [2]
    case Space2 => [3]
    case Space3 => [0]
    case SpaceA => [2, 3, 0]
    case SpaceB => [3, 0, 1]
    case SpaceC => [0, 1, 2]
    case SpaceD => [1, 2, 3]
  }

  /** Either kind of builder, as the character constructor receives them. */
  datatype PatternBuilder = Bars(bar: BarPattern) | Spaces(space: SpacePattern)
  {
    method Build(symbols: array<Symbol>)
      requires symbols.Length == PatternLength
      modifies symbols
      ensures symbols[..] == Applied(old(symbols[..]), this)
    {
      match this
      case Bars(b) => b.Build(symbols);
      case Spaces(sp) => sp.Build(symbols);
    }
  }

  /** The pattern before any builder runs: bars at even slots, spaces at odd
      slots, all narrow. */
  function Initial(): seq<Symbol>
  {
    seq(PatternLength, i => if i % 2 == 0 then NarrowBar else NarrowSpace)
  }

  /** The pattern `p` after the slots `2 * m` of the marks `ms` were set to a
      wide bar, one mark after the other. */
  function MarkBars(p: seq<Symbol>, ms: seq<nat>): (r: seq<Symbol>)
    requires forall k :: 0 <= k < |ms| ==> 2 * ms[k] < |p|
    ensures |r| == |p|
  {
    if ms == [] then p else MarkBars(p, ms[..|ms| - 1])[2 * ms[|ms| - 1] := WideBar]
  }

  /** The pattern `p` after the slots `2 * m + 1` of the marks `ms` were set
      to a wide space, one mark after the other. */
  function MarkSpaces(p: seq<Symbol>, ms: seq<nat>): (r: seq<Symbol>)
    requires forall k :: 0 <= k < |ms| ==> 2 * ms[k] + 1 < |p|
    ensures |r| == |p|
  {
    if ms == [] then p else MarkSpaces(p, ms[..|ms| - 1])[2 * ms[|ms| - 1] + 1 := WideSpace]
  }

  function Applied(p: seq<Symbol>, builder: PatternBuilder): (r: seq<Symbol>)
    requires |p| == PatternLength
    ensures |r| == PatternLength
  {
    match builder
    case Bars(b) => MarkBars(p, BarMarks(b))
    case Spaces(s) => MarkSpaces(p, SpaceMarks(s))
  }

  /** The pattern after the builders ran in order. */
  function BuildAll(p: seq<Symbol>, builders: seq<PatternBuilder>): (r: seq<Symbol>)
    requires |p| == PatternLength
    ensures |r| == PatternLength
  {
    if builders == [] then p
    else
      Applied(BuildAll(p, builders[..|builders| - 1]), builders[|builders| - 1])
  }

  /** Marking bars touches only the even slots `2 * m` of the marks, and
      makes exactly those wide bars. */
  lemma {:induction false} MarkBarsAt(p: seq<Symbol>, ms: seq<nat>, i: nat)
    requires forall k :: 0 <= k < |ms| ==> 2 * ms[k] < |p|
    ensures i < |p| ==> MarkBars(p, ms)[i] == if i % 2 == 0 && i / 2 in ms then WideBar else p[i]
  {
    if ms != [] {
      MarkBarsAt(p, ms[..|ms| - 1], i);
      assert forall m :: m in ms <==> m in ms[..|ms| - 1] || m == ms[|ms| - 1];
    }
  }

  /** Marking spaces touches only the odd slots `2 * m + 1` of the marks, and
      makes exactly those wide spaces. */
  lemma {:induction false} MarkSpacesAt(p: seq<Symbol>, ms: seq<nat>, i: nat)
    requires forall k :: 0 <= k < |ms| ==> 2 * ms[k] + 1 < |p|
    ensures i < |p| ==> MarkSpaces(p, ms)[i] == if i % 2 == 1 && i / 2 in ms then WideSpace else p[i]
  {
    if ms != [] {
      MarkSpacesAt(p, ms[..|ms| - 1], i);
      assert forall m :: m in ms <==> m in ms[..|ms| - 1] || m == ms[|ms| - 1];
    }
  }

  predicate NoDuplicates(ms: seq<nat>)
  {
    forall i, j :: 0 <= i < j < |ms| ==> ms[i] != ms[j]
  }

  /** How many of each symbol a pattern holds. */
  datatype Tally = Tally(narrowBars: int, wideBars: int, narrowSpaces: int, wideSpaces: int)

  function TallyOf(p: seq<Symbol>): Tally
  {
    if p == [] then Tally(0, 0, 0, 0) else Bumped(TallyOf(p[..|p| - 1]), p[|p| - 1], 1)
  }

  /** The tally with `d` more of the symbol `x`. */
  function Bumped(t: Tally, x: Symbol, d: int): Tally
  {
    match x
    case NarrowBar => t.(narrowBars := t.narrowBars + d)
    case WideBar => t.(wideBars := t.wideBars + d)
    case NarrowSpace => t.(narrowSpaces := t.narrowSpaces + d)
    case WideSpace => t.(wideSpaces := t.wideSpaces + d)
  }

  lemma BumpedCommute(t: Tally, x: Symbol, d: int, y: Symbol, e: int)
    ensures Bumped(Bumped(t, x, d), y, e) == Bumped(Bumped(t, y, e), x, d)
  {
  }

  /** Overwriting one slot takes one of the old symbol and adds one of the new. */
  lemma {:induction false} TallyUpdate(p: seq<Symbol>, i: nat, x: Symbol)
    requires i < |p|
    ensures TallyOf(p[i := x]) == Bumped(Bumped(TallyOf(p), p[i], -1), x, 1)
  {
    var init, last := p[..|p| - 1], p[|p| - 1];
    var q := p[i := x];
    var t := TallyOf(init);
    if i == |p| - 1 {
      assert q[..|q| - 1] == init && q[|q| - 1] == x;
      assert Bumped(Bumped(t, last, 1), last, -1) == t;
    } else {
      assert q[..|q| - 1] == init[i := x] && q[|q| - 1] == last;
      TallyUpdate(init, i, x);
      BumpedCommute(Bumped(t, init[i], -1), x, 1, last, 1);
      BumpedCommute(t, init[i], -1, last, 1);
    }
  }

  /** The tally after `n` narrow bars became wide. */
  function WidenedBars(t: Tally, n: int): Tally
  {
    t.(narrowBars := t.narrowBars - n, wideBars := t.wideBars + n)
  }

  /** The tally after `n` narrow spaces became wide. */
  function WidenedSpaces(t: Tally, n: int): Tally
  {
    t.(narrowSpaces := t.narrowSpaces - n, wideSpaces := t.wideSpaces + n)
  }

  lemma WidenedBarStep(q: seq<Symbol>, slot: nat, t: Tally, n: int)
    requires slot < |q| && q[slot] == NarrowBar && TallyOf(q) == WidenedBars(t, n)
    ensures TallyOf(q[slot := WideBar]) == WidenedBars(t, n + 1)
  {
    TallyUpdate(q, slot, WideBar);
  }

  lemma WidenedSpaceStep(q: seq<Symbol>, slot: nat, t: Tally, n: int)
    requires slot < |q| && q[slot] == NarrowSpace && TallyOf(q) == WidenedSpaces(t, n)
    ensures TallyOf(q[slot := WideSpace]) == WidenedSpaces(t, n + 1)
  {
    TallyUpdate(q, slot, WideSpace);
  }

  /** The marks `ms` are distinct and each names a narrow bar of `p`. */
  predicate BarsMarkable(p: seq<Symbol>, ms: seq<nat>)
  {
    && (forall k :: 0 <= k < |ms| ==> 2 * ms[k] < |p| && p[2 * ms[k]] == NarrowBar)
    && NoDuplicates(ms)
  }

  /** The marks `ms` are distinct and each names a narrow space of `p`. */
  predicate SpacesMarkable(p: seq<Symbol>, ms: seq<nat>)
  {
    && (forall k :: 0 <= k < |ms| ==> 2 * ms[k] + 1 < |p| && p[2 * ms[k] + 1] == NarrowSpace)
    && NoDuplicates(ms)
  }

  lemma BarsMarkableInit(p: seq<Symbol>, ms: seq<nat>)
    requires ms != [] && BarsMarkable(p, ms)
    ensures BarsMarkable(p, ms[..|ms| - 1]) && ms[|ms| - 1] !in ms[..|ms| - 1]
  {
    var init, m := ms[..|ms| - 1], ms[|ms| - 1];
    assert forall k :: 0 <= k < |init| ==> init[k] == ms[k];
    assert m !in init by {
      forall k | 0 <= k < |init| ensures init[k] != m {
        assert init[k] == ms[k];
      }
    }
  }

  lemma SpacesMarkableInit(p: seq<Symbol>, ms: seq<nat>)
    requires ms != [] && SpacesMarkable(p, ms)
    ensures SpacesMarkable(p, ms[..|ms| - 1]) && ms[|ms| - 1] !in ms[..|ms| - 1]
  {
    var init, m := ms[..|ms| - 1], ms[|ms| - 1];
    assert forall k :: 0 <= k < |init| ==> init[k] == ms[k];
    assert m !in init by {
      forall k | 0 <= k < |init| ensures init[k] != m {
        assert init[k] == ms[k];
      }
    }
  }

  /** Mark `m` names the bar slot `2 * m` and the space slot `2 * m + 1`. */
  lemma SlotOfMark(m: nat)
    ensures (2 * m) % 2 == 0 && (2 * m) / 2 == m
    ensures (2 * m + 1) % 2 == 1 && (2 * m + 1) / 2 == m
  {
  }

  /** Marking distinct bar groups whose slots hold narrow bars turns exactly
      that many narrow bars into wide bars and leaves the spaces alone. */
  lemma {:induction false} MarkBarsCount(p: seq<Symbol>, ms: seq<nat>)
    requires BarsMarkable(p, ms)
    ensures TallyOf(MarkBars(p, ms)) == WidenedBars(TallyOf(p), |ms|)
  {
    if ms != [] {
      var init, m := ms[..|ms| - 1], ms[|ms| - 1];
      BarsMarkableInit(p, ms);
      MarkBarsCount(p, init);
      MarkBarsAt(p, init, 2 * m);
      SlotOfMark(m);
      WidenedBarStep(MarkBars(p, init), 2 * m, TallyOf(p), |init|);
    }
  }

  /** Marking distinct space groups whose slots hold narrow spaces turns
      exactly that many narrow spaces into wide spaces and leaves the bars alone. */
  lemma {:induction false} MarkSpacesCount(p: seq<Symbol>, ms: seq<nat>)
    requires SpacesMarkable(p, ms)
    ensures TallyOf(MarkSpaces(p, ms)) == WidenedSpaces(TallyOf(p), |ms|)
  {
    if ms != [] {
      var init, m := ms[..|ms| - 1], ms[|ms| - 1];
      SpacesMarkableInit(p, ms);
      MarkSpacesCount(p, init);
      MarkSpacesAt(p, init, 2 * m + 1);
      SlotOfMark(m);
      WidenedSpaceStep(MarkSpaces(p, init), 2 * m + 1, TallyOf(p), |init|);
    }
  }

  /** The pattern the character constructor builds: a nine-slot array filled
      with the initial alternation, then handed to each builder in turn. */
  method NewPattern(builders: seq<PatternBuilder>) returns (pattern: seq<Symbol>)
    ensures pattern == BuildAll(Initial(), builders)
  {
    var symbols := new Symbol[PatternLength];
    for index := 0 to symbols.Length
      invariant forall j :: 0 <= j < index ==> symbols[j] == Initial()[j]
    {
      symbols[index] := if index % 2 == 0 then NarrowBar else NarrowSpace;
    }
    assert symbols[..] == Initial();
    for k := 0 to |builders|
      invariant symbols[..] == BuildAll(Initial(), builders[..k])
    {
      builders[k].Build(symbols);
      assert builders[..k + 1][..k] == builders[..k];
    }
    assert builders[..|builders|] == builders;
    pattern := symbols[..];
  }

  // ---------------------------------------------------------------------
  // The character table

  /** The 44 characters of the table, in declaration order. */
  datatype Character =
    | Digit0 | Digit1 | Digit2 | Digit3 | Digit4 | Digit5 | Digit6 | Digit7 | Digit8 | Digit9
    | LetterA | LetterB | LetterC | LetterD | LetterE | LetterF | LetterG | LetterH | LetterI | LetterJ
    | LetterK | LetterL | LetterM | LetterN | LetterO | LetterP | LetterQ | LetterR | LetterS | LetterT
    | LetterU | LetterV | LetterW | LetterX | LetterY | LetterZ
    | HyphenMinus | FullStop | Space | DollarSign | Slash | PlusSign | PercentSign | Asterisk

  /** `values()`: every character, in declaration order. */
  function Values(): seq<Character>
  {
    [ Digit0, Digit1, Digit2, Digit3, Digit4, Digit5, Digit6, Digit7, Digit8, Digit9,
      LetterA, LetterB, LetterC, LetterD, LetterE, LetterF, LetterG, LetterH, LetterI, LetterJ,
      LetterK, LetterL, LetterM, LetterN, LetterO, LetterP, LetterQ, LetterR, LetterS, LetterT,
      LetterU, LetterV, LetterW, LetterX, LetterY, LetterZ,
      HyphenMinus, FullStop, Space, DollarSign, Slash, PlusSign, PercentSign, Asterisk ]
  }

  /** `getNumber()`: the enum ordinal, the position in declaration order. */
  function Number(c: Character): (n: nat)
    ensures n < 44
  {
    match c
    case Digit0 => 0 case Digit1 => 1 case Digit2 => 2 case Digit3 => 3 case Digit4 => 4
    case Digit5 => 5 case Digit6 => 6 case Digit7 => 7 case Digit8 => 8 case Digit9 => 9
    case LetterA => 10 case LetterB => 11 case LetterC => 12 case LetterD => 13 case LetterE => 14
    case LetterF => 15 case LetterG => 16 case LetterH => 17 case LetterI => 18 case LetterJ => 19
    case LetterK => 20 case LetterL => 21 case LetterM => 22 case LetterN => 23 case LetterO => 24
    case LetterP => 25 case LetterQ => 26 case LetterR => 27 case LetterS => 28 case LetterT => 29
    case LetterU => 30 case LetterV => 31 case LetterW => 32 case LetterX => 33 case LetterY => 34
    case LetterZ => 35
    case HyphenMinus => 36 case FullStop => 37 case Space => 38 case DollarSign => 39
    case Slash => 40 case PlusSign => 41 case PercentSign => 42 case Asterisk => 43
  }

  /** `getCharacter()`: the glyph the character stands for. */
  function Glyph(c: Character): char
  {
    match c
    case Digit0 => '0' case Digit1 => '1' case Digit2 => '2' case Digit3 => '3' case Digit4 => '4'
    case Digit5 => '5' case Digit6 => '6' case Digit7 => '7' case Digit8 => '8' case Digit9 => '9'
    case LetterA => 'A' case LetterB => 'B' case LetterC => 'C' case LetterD => 'D' case LetterE => 'E'
    case LetterF => 'F' case LetterG => 'G' case LetterH => 'H' case LetterI => 'I' case LetterJ => 'J'
    case LetterK => 'K' case LetterL => 'L' case LetterM => 'M' case LetterN => 'N' case LetterO => 'O'
    case LetterP => 'P' case LetterQ => 'Q' case LetterR => 'R' case LetterS => 'S' case LetterT => 'T'
    case LetterU => 'U' case LetterV => 'V' case LetterW => 'W' case LetterX => 'X' case LetterY => 'Y'
    case LetterZ => 'Z'
    case HyphenMinus => '-' case FullStop => '.' case Space => ' ' case DollarSign => '$'
    case Slash => '/' case PlusSign => '+' case PercentSign => '%' case Asterisk => '*'
  }

  /** The bar rule and the space rule each character is declared with. */
  function Rules(c: Character): (BarPattern, SpacePattern)
  {
    match c
    case Digit0 => (BarA, Space0) case Digit1 => (Bar1, Space0) case Digit2 => (Bar2, Space0)
    case Digit3 => (Bar3, Space0) case Digit4 => (Bar4, Space0) case Digit5 => (Bar5, Space0)
    case Digit6 => (Bar6, Space0) case Digit7 => (Bar7, Space0) case Digit8 => (Bar8, Space0)
    case Digit9 => (Bar9, Space0)
    case LetterA => (Bar1, Space1) case LetterB => (Bar2, Space1) case LetterC => (Bar3, Space1)
    case LetterD => (Bar4, Space1) case LetterE => (Bar5, Space1) case LetterF => (Bar6, Space1)
    case LetterG => (Bar7, Space1) case LetterH => (Bar8, Space1) case LetterI => (Bar9, Space1)
    case LetterJ => (BarA, Space1)
    case LetterK => (Bar1, Space2) case LetterL => (Bar2, Space2) case LetterM => (Bar3, Space2)
    case LetterN => (Bar4, Space2) case LetterO => (Bar5, Space2) case LetterP => (Bar6, Space2)
    case LetterQ => (Bar7, Space2) case LetterR => (Bar8, Space2) case LetterS => (Bar9, Space2)
    case LetterT => (BarA, Space2)
    case LetterU => (Bar1, Space3) case LetterV => (Bar2, Space3) case LetterW => (Bar3, Space3)
    case LetterX => (Bar4, Space3) case LetterY => (Bar5, Space3) case LetterZ => (Bar6, Space3)
    case HyphenMinus => (Bar7, Space3) case FullStop => (Bar8, Space3) case Space => (Bar9, Space3)
    case DollarSign => (BarB, SpaceC) case Slash => (BarB, SpaceB) case PlusSign => (BarB, SpaceA)
    case PercentSign => (BarB, SpaceD) case Asterisk => (BarA, Space3)
  }

  /** The builders handed to the character's constructor, bar rule first. */
  function Builders(c: Character): seq<PatternBuilder>
  {
    [Bars(Rules(c).0), Spaces(Rules(c).1)]
  }

  /** `getPattern()`: the pattern the constructor built for the character. */
  function PatternOf(c: Character): seq<Symbol>
  {
    BuildAll(Initial(), Builders(c))
  }

  /** The four characters built with the empty bar rule. */
  predicate IsSpecial(c: Character)
  {
    Rules(c).0 == BarB
  }

  /** The slot `i` of the pattern of `c`, stated per slot: an even slot is a
      bar, wide when its group is one of the bar rule's marks; an odd slot is
      a space, wide when its group is one of the space rule's marks. */
  lemma PatternSlot(c: Character, i: nat)
    requires i < PatternLength
    ensures |PatternOf(c)| == PatternLength
    ensures PatternOf(c)[i] ==
      if i % 2 == 0 then (if i / 2 in BarMarks(Rules(c).0) then WideBar else NarrowBar)
      else (if i / 2 in SpaceMarks(Rules(c).1) then WideSpace else NarrowSpace)
  {
    PatternOfMarks(c);
    MarksSlot(BarMarks(Rules(c).0), SpaceMarks(Rules(c).1), i);
  }

  /** Slot `i` after marking the bar groups `bm` and then the space groups
      `sm` of the initial alternation. */
  lemma MarksSlot(bm: seq<nat>, sm: seq<nat>, i: nat)
    requires forall k :: 0 <= k < |bm| ==> 2 * bm[k] < PatternLength
    requires forall k :: 0 <= k < |sm| ==> 2 * sm[k] + 1 < PatternLength
    requires i < PatternLength
    ensures MarkSpaces(MarkBars(Initial(), bm), sm)[i] ==
      if i % 2 == 0 then (if i / 2 in bm then WideBar else NarrowBar)
      else (if i / 2 in sm then WideSpace else NarrowSpace)
  {
    MarkBarsAt(Initial(), bm, i);
    MarkSpacesAt(MarkBars(Initial(), bm), sm, i);
    InitialSlot(i);
  }

  /** Every pattern has nine symbols, bars exactly at the even slots. */
  lemma PatternShape(c: Character)
    ensures |PatternOf(c)| == PatternLength
    ensures forall i :: 0 <= i < PatternLength ==> (PatternOf(c)[i].IsBar() <==> i % 2 == 0)
  {
    forall i | 0 <= i < PatternLength
      ensures PatternOf(c)[i].IsBar() <==> i % 2 == 0
    {
      PatternSlot(c, i);
    }
    PatternSlot(c, 0);
  }

  /** The marks of every bar rule are distinct: two of them, none for `BarB`. */
  lemma BarRuleMarks(b: BarPattern)
    ensures NoDuplicates(BarMarks(b))
    ensures |BarMarks(b)| == if b == BarB then 0 else 2
  {
  }

  /** The marks of every space rule are distinct: one of them for the single
      rules, three for the triple rules. */
  lemma SpaceRuleMarks(sp: SpacePattern)
    ensures NoDuplicates(SpaceMarks(sp))
    ensures |SpaceMarks(sp)| == if sp in {Space0, Space1, Space2, Space3} then 1 else 3
  {
  }

  /** Exactly the characters with the empty bar rule use a triple space rule. */
  lemma SpecialRules(c: Character)
    ensures IsSpecial(c) <==> Rules(c).1 !in {Space0, Space1, Space2, Space3}
  {
    match c
    case Digit0 => case Digit1 => case Digit2 => case Digit3 => case Digit4 =>
    case Digit5 => case Digit6 => case Digit7 => case Digit8 => case Digit9 =>
    case LetterA => case LetterB => case LetterC => case LetterD => case LetterE =>
    case LetterF => case LetterG => case LetterH => case LetterI => case LetterJ =>
    case LetterK => case LetterL => case LetterM => case LetterN => case LetterO =>
    case LetterP => case LetterQ => case LetterR => case LetterS => case LetterT =>
    case LetterU => case LetterV => case LetterW => case LetterX => case LetterY =>
    case LetterZ => case HyphenMinus => case FullStop => case Space => case DollarSign =>
    case Slash => case PlusSign => case PercentSign => case Asterisk =>
  }

  lemma InitialSlot(i: nat)
    requires i < PatternLength
    ensures Initial()[i] == if i % 2 == 0 then NarrowBar else NarrowSpace
  {
  }

  /** Bars at the even positions and spaces at the odd ones, all narrow. */
  predicate Alternating(p: seq<Symbol>)
  {
    forall i :: 0 <= i < |p| ==> p[i] == if i % 2 == 0 then NarrowBar else NarrowSpace
  }

  lemma AlternatingStep(t: Tally, k: nat, x: Symbol)
    requires t == Tally((k + 1) / 2, 0, k / 2, 0)
    requires x == if k % 2 == 0 then NarrowBar else NarrowSpace
    ensures Bumped(t, x, 1) == Tally((k + 2) / 2, 0, (k + 1) / 2, 0)
  {
  }

  /** An alternating pattern of length n has the ceiling of n/2 narrow bars
      and the floor of n/2 narrow spaces. */
  lemma {:induction false} AlternatingTally(p: seq<Symbol>)
    requires Alternating(p)
    ensures TallyOf(p) == Tally((|p| + 1) / 2, 0, |p| / 2, 0)
  {
    if p != [] {
      var init := p[..|p| - 1];
      assert Alternating(init) by {
        forall i | 0 <= i < |init| ensures init[i] == if i % 2 == 0 then NarrowBar else NarrowSpace {
          assert init[i] == p[i];
        }
      }
      AlternatingTally(init);
      AlternatingStep(TallyOf(init), |init|, p[|p| - 1]);
    }
  }

  /** The pattern every character starts from: five narrow bars and four
      narrow spaces. */
  lemma InitialTally()
    ensures TallyOf(Initial()) == Tally(5, 0, 4, 0)
  {
    AlternatingTally(Initial());
  }

  /** The symbol counts of a pattern built from a bar rule and a space rule:
      each mark turns one narrow element wide. */
  lemma RuleCounts(b: BarPattern, sp: SpacePattern)
    ensures TallyOf(MarkSpaces(MarkBars(Initial(), BarMarks(b)), SpaceMarks(sp))) ==
      Tally(5 - |BarMarks(b)|, |BarMarks(b)|, 4 - |SpaceMarks(sp)|, |SpaceMarks(sp)|)
  {
    var bm, sm := BarMarks(b), SpaceMarks(sp);
    var afterBars := MarkBars(Initial(), bm);
    BarRuleMarks(b);
    SpaceRuleMarks(sp);
    InitialTally();
    forall k | 0 <= k < |bm|
      ensures Initial()[2 * bm[k]] == NarrowBar
    {
      SlotOfMark(bm[k]);
      InitialSlot(2 * bm[k]);
    }
    MarkBarsCount(Initial(), bm);
    forall k | 0 <= k < |sm|
      ensures afterBars[2 * sm[k] + 1] == NarrowSpace
    {
      var slot := 2 * sm[k] + 1;
      SlotOfMark(sm[k]);
      MarkBarsAt(Initial(), bm, slot);
      InitialSlot(slot);
    }
    MarkSpacesCount(afterBars, sm);
  }

  /** A character's pattern is the initial alternation with its bar rule's
      marks and then its space rule's marks applied. */
  lemma PatternOfMarks(c: Character)
    ensures PatternOf(c) == MarkSpaces(MarkBars(Initial(), BarMarks(Rules(c).0)), SpaceMarks(Rules(c).1))
  {
    var bs := Builders(c);
    assert bs[..1][..0] == [] && bs[..1] == [bs[0]];
    assert BuildAll(Initial(), bs[..1]) == MarkBars(Initial(), BarMarks(Rules(c).0));
  }

  /** How often each symbol occurs in the pattern of `c`: three wide elements
      in every pattern; two wide bars and one wide space, except for the four
      special characters, which have no wide bar and three wide spaces. */
  lemma SymbolCounts(c: Character)
    ensures TallyOf(PatternOf(c)) == if IsSpecial(c) then Tally(5, 0, 1, 3) else Tally(3, 2, 3, 1)
  {
    PatternOfMarks(c);
    RuleCounts(Rules(c).0, Rules(c).1);
    BarRuleMarks(Rules(c).0);
    SpaceRuleMarks(Rules(c).1);
    SpecialRules(c);
  }

  /** The pattern whose wide bar groups are `bm` and whose wide space groups
      are `sm`, stated slot by slot. */
  function SlotPattern(bm: seq<nat>, sm: seq<nat>): seq<Symbol>
  {
    seq(PatternLength, i =>
      if i % 2 == 0 then (if i / 2 in bm then WideBar else NarrowBar)
      else (if i / 2 in sm then WideSpace else NarrowSpace))
  }

  /** The pattern a bar rule and a space rule describe. */
  function RulePattern(b: BarPattern, sp: SpacePattern): seq<Symbol>
  {
    SlotPattern(BarMarks(b), SpaceMarks(sp))
  }

  /** The builders of a character produce the pattern its rules describe. */
  lemma PatternOfRules(c: Character)
    ensures PatternOf(c) == RulePattern(Rules(c).0, Rules(c).1)
  {
    forall i | 0 <= i < PatternLength
      ensures PatternOf(c)[i] == RulePattern(Rules(c).0, Rules(c).1)[i]
    {
      PatternSlot(c, i);
    }
    PatternSlot(c, 0);
  }

  /** A slot pattern determines which bar groups and which space groups it
      makes wide. */
  lemma SlotPatternDetermines(bm1: seq<nat>, sm1: seq<nat>, bm2: seq<nat>, sm2: seq<nat>)
    requires SlotPattern(bm1, sm1) == SlotPattern(bm2, sm2)
    ensures forall m :: 0 <= m < 5 ==> (m in bm1 <==> m in bm2)
    ensures forall m :: 0 <= m < 4 ==> (m in sm1 <==> m in sm2)
  {
    var p1, p2 := SlotPattern(bm1, sm1), SlotPattern(bm2, sm2);
    forall m | 0 <= m < 5
      ensures m in bm1 <==> m in bm2
    {
      assert (2 * m) % 2 == 0 && (2 * m) / 2 == m;
      assert p1[2 * m] == p2[2 * m];
    }
    forall m | 0 <= m < 4
      ensures m in sm1 <==> m in sm2
    {
      assert (2 * m + 1) % 2 == 1 && (2 * m + 1) / 2 == m;
      assert p1[2 * m + 1] == p2[2 * m + 1];
    }
  }

  /** A rule pattern determines its rules. */
  lemma RulePatternInjective(b1: BarPattern, s1: SpacePattern, b2: BarPattern, s2: SpacePattern)
    requires RulePattern(b1, s1) == RulePattern(b2, s2)
    ensures b1 == b2 && s1 == s2
  {
    SlotPatternDetermines(BarMarks(b1), SpaceMarks(s1), BarMarks(b2), SpaceMarks(s2));
    BarRuleDetermined(b1, b2);
    SpaceRuleDetermined(s1, s2);
  }

  lemma BarRuleDetermined(b1: BarPattern, b2: BarPattern)
    requires forall m :: 0 <= m < 5 ==> (m in BarMarks(b1) <==> m in BarMarks(b2))
    ensures b1 == b2
  {
    assert (0 in BarMarks(b1) <==> 0 in BarMarks(b2)) && (1 in BarMarks(b1) <==> 1 in BarMarks(b2));
    assert (2 in BarMarks(b1) <==> 2 in BarMarks(b2)) && (3 in BarMarks(b1) <==> 3 in BarMarks(b2));
    assert 4 in BarMarks(b1) <==> 4 in BarMarks(b2);
  }

  lemma SpaceRuleDetermined(s1: SpacePattern, s2: SpacePattern)
    requires forall m :: 0 <= m < 4 ==> (m in SpaceMarks(s1) <==> m in SpaceMarks(s2))
    ensures s1 == s2
  {
    assert (0 in SpaceMarks(s1) <==> 0 in SpaceMarks(s2)) && (1 in SpaceMarks(s1) <==> 1 in SpaceMarks(s2));
    assert (2 in SpaceMarks(s1) <==> 2 in SpaceMarks(s2)) && (3 in SpaceMarks(s1) <==> 3 in SpaceMarks(s2));
  }

  /** The character declared with the rules `r`, if any: the table read
      backwards. */
  function OfRules(r: (BarPattern, SpacePattern)): Option<Character>
  {
    match r
    case (BarA, Space0) => Some(Digit0) case (Bar1, Space0) => Some(Digit1) case (Bar2, Space0) => Some(Digit2)
    case (Bar3, Space0) => Some(Digit3) case (Bar4, Space0) => Some(Digit4) case (Bar5, Space0) => Some(Digit5)
    case (Bar6, Space0) => Some(Digit6) case (Bar7, Space0) => Some(Digit7) case (Bar8, Space0) => Some(Digit8)
    case (Bar9, Space0) => Some(Digit9)
    case (Bar1, Space1) => Some(LetterA) case (Bar2, Space1) => Some(LetterB) case (Bar3, Space1) => Some(LetterC)
    case (Bar4, Space1) => Some(LetterD) case (Bar5, Space1) => Some(LetterE) case (Bar6, Space1) => Some(LetterF)
    case (Bar7, Space1) => Some(LetterG) case (Bar8, Space1) => Some(LetterH) case (Bar9, Space1) => Some(LetterI)
    case (BarA, Space1) => Some(LetterJ)
    case (Bar1, Space2) => Some(LetterK) case (Bar2, Space2) => Some(LetterL) case (Bar3, Space2) => Some(LetterM)
    case (Bar4, Space2) => Some(LetterN) case (Bar5, Space2) => Some(LetterO) case (Bar6, Space2) => Some(LetterP)
    case (Bar7, Space2) => Some(LetterQ) case (Bar8, Space2) => Some(LetterR) case (Bar9, Space2) => Some(LetterS)
    case (BarA, Space2) => Some(LetterT)
    case (Bar1, Space3) => Some(LetterU) case (Bar2, Space3) => Some(LetterV) case (Bar3, Space3) => Some(LetterW)
    case (Bar4, Space3) => Some(LetterX) case (Bar5, Space3) => Some(LetterY) case (Bar6, Space3) => Some(LetterZ)
    case (Bar7, Space3) => Some(HyphenMinus) case (Bar8, Space3) => Some(FullStop) case (Bar9, Space3) => Some(Space)
    case (BarB, SpaceC) => Some(DollarSign) case (BarB, SpaceB) => Some(Slash) case (BarB, SpaceA) => Some(PlusSign)
    case (BarB, SpaceD) => Some(PercentSign) case (BarA, Space3) => Some(Asterisk)
    case _ => None
  }

  /** Reading the table backwards finds every character by its rules. */
  lemma OfRulesFinds(c: Character)
    ensures OfRules(Rules(c)) == Some(c)
  {
    match c
    case Digit0 => case Digit1 => case Digit2 => case Digit3 => case Digit4 =>
    case Digit5 => case Digit6 => case Digit7 => case Digit8 => case Digit9 =>
    case LetterA => case LetterB => case LetterC => case LetterD => case LetterE =>
    case LetterF => case LetterG => case LetterH => case LetterI => case LetterJ =>
    case LetterK => case LetterL => case LetterM => case LetterN => case LetterO =>
    case LetterP => case LetterQ => case LetterR => case LetterS => case LetterT =>
    case LetterU => case LetterV => case LetterW => case LetterX => case LetterY =>
    case LetterZ =>
    case HyphenMinus => case FullStop => case Space => case DollarSign =>
    case Slash => case PlusSign => case PercentSign => case Asterisk =>
  }

  /** Two characters never share their pair of rules. */
  lemma RulesInjective(c1: Character, c2: Character)
    requires Rules(c1) == Rules(c2)
    ensures c1 == c2
  {
    OfRulesFinds(c1);
    OfRulesFinds(c2);
  }

  /** The 44 patterns are pairwise distinct. */
  lemma PatternsDistinct(c1: Character, c2: Character)
    requires c1 != c2
    ensures PatternOf(c1) != PatternOf(c2)
  {
    PatternOfRules(c1);
    PatternOfRules(c2);
    if PatternOf(c1) == PatternOf(c2) {
      RulePatternInjective(Rules(c1).0, Rules(c1).1, Rules(c2).0, Rules(c2).1);
      RulesInjective(c1, c2);
    }
  }

  /** A pattern written as ISO/IEC 16388 writes it: '1' for a wide
      element, '0' for a narrow one. */
  function WideFlags(p: seq<Symbol>): string
  {
    seq(|p|, i requires 0 <= i < |p| => if p[i].IsWide() then '1' else '0')
  }

  function Flag(wide: bool): char
  {
    if wide then '1' else '0'
  }

  lemma SlotFlags(bm: seq<nat>, sm: seq<nat>)
    ensures WideFlags(SlotPattern(bm, sm)) ==
      [Flag(0 in bm), Flag(0 in sm), Flag(1 in bm), Flag(1 in sm), Flag(2 in bm),
       Flag(2 in sm), Flag(3 in bm), Flag(3 in sm), Flag(4 in bm)]
  {
    BarSlotFlag(bm, sm, 0); SpaceSlotFlag(bm, sm, 0); BarSlotFlag(bm, sm, 1);
    SpaceSlotFlag(bm, sm, 1); BarSlotFlag(bm, sm, 2); SpaceSlotFlag(bm, sm, 2);
    BarSlotFlag(bm, sm, 3); SpaceSlotFlag(bm, sm, 3); BarSlotFlag(bm, sm, 4);
    NineEqual(WideFlags(SlotPattern(bm, sm)),
      [Flag(0 in bm), Flag(0 in sm), Flag(1 in bm), Flag(1 in sm), Flag(2 in bm),
       Flag(2 in sm), Flag(3 in bm), Flag(3 in sm), Flag(4 in bm)]);
  }

  lemma BarSlotFlag(bm: seq<nat>, sm: seq<nat>, m: nat)
    requires 2 * m < PatternLength
    ensures |WideFlags(SlotPattern(bm, sm))| == PatternLength
    ensures WideFlags(SlotPattern(bm, sm))[2 * m] == Flag(m in bm)
  {
    SlotOfMark(m);
  }

  lemma SpaceSlotFlag(bm: seq<nat>, sm: seq<nat>, m: nat)
    requires 2 * m + 1 < PatternLength
    ensures |WideFlags(SlotPattern(bm, sm))| == PatternLength
    ensures WideFlags(SlotPattern(bm, sm))[2 * m + 1] == Flag(m in sm)
  {
    SlotOfMark(m);
  }

  lemma NineEqual(a: string, b: string)
    requires |a| == 9 && |b| == 9
    requires a[0] == b[0] && a[1] == b[1] && a[2] == b[2] && a[3] == b[3] && a[4] == b[4]
    requires a[5] == b[5] && a[6] == b[6] && a[7] == b[7] && a[8] == b[8]
    ensures a == b
  {
    assert forall i :: 0 <= i < 9 ==> a[i] == b[i];
  }

  /** The wide flags of the bar slots 0, 2, 4, 6, 8 under a bar rule. */
  function BarFlags(b: BarPattern): string
  {
    var m := BarMarks(b);
    [Flag(0 in m), Flag(1 in m), Flag(2 in m), Flag(3 in m), Flag(4 in m)]
  }

  /** The wide flags of the space slots 1, 3, 5, 7 under a space rule. */
  function SpaceFlags(s: SpacePattern): string
  {
    var m := SpaceMarks(s);
    [Flag(0 in m), Flag(1 in m), Flag(2 in m), Flag(3 in m)]
  }

  /** Bar flags and space flags merged back into slot order. */
  function Interleave(bf: string, sf: string): string
    requires |bf| == 5 && |sf| == 4
  {
    [bf[0], sf[0], bf[1], sf[1], bf[2], sf[2], bf[3], sf[3], bf[4]]
  }

  /** The flags each bar rule sets, as its table row reads. */
  function BarRuleFlags(b: BarPattern): (r: string)
    ensures |r| == 5
  {
    match b
    case Bar1 => "10001" case Bar2 => "01001" case Bar3 => "11000"
    case Bar4 => "00101" case Bar5 => "10100" case Bar6 => "01100"
    case Bar7 => "00011" case Bar8 => "10010" case Bar9 => "01010"
    case BarA => "00110" case BarB => "00000"
  }

  /** The flags each space rule sets, as its table row reads. */
  function SpaceRuleFlags(s: SpacePattern): (r: string)
    ensures |r| == 4
  {
    match s
    case Space0 => "0100" case Space1 => "0010" case Space2 => "0001"
    case Space3 => "1000" case SpaceA => "1011" case SpaceB => "1101"
    case SpaceC => "1110" case SpaceD => "0111"
  }

  lemma BarFlagsTable(b: BarPattern)
    ensures BarFlags(b) == BarRuleFlags(b)
  {
  }

  lemma SpaceFlagsTable(s: SpacePattern)
    ensures SpaceFlags(s) == SpaceRuleFlags(s)
  {
  }

  lemma IsoByRulesDigits(c: Character)
    requires c.Digit0? || c.Digit1? || c.Digit2? || c.Digit3? || c.Digit4?
      || c.Digit5? || c.Digit6? || c.Digit7? || c.Digit8? || c.Digit9?
    ensures Iso16388.Encodation(Glyph(c)) ==
      Some(Interleave(BarRuleFlags(Rules(c).0), SpaceRuleFlags(Rules(c).1)))
  {
    match c
    case Digit0 => case Digit1 => case Digit2 => case Digit3 => case Digit4 =>
    case Digit5 => case Digit6 => case Digit7 => case Digit8 => case Digit9 =>
    case _ => assert false;
  }

  lemma IsoByRulesEarlyLetters(c: Character)
    requires c.LetterA? || c.LetterB? || c.LetterC? || c.LetterD? || c.LetterE?
      || c.LetterF?
    ensures Iso16388.Encodation(Glyph(c)) ==
      Some(Interleave(BarRuleFlags(Rules(c).0), SpaceRuleFlags(Rules(c).1)))
  {
    match c
    case LetterA => case LetterB => case LetterC => case LetterD => case LetterE =>
    case LetterF =>
    case _ => assert false;
  }

  lemma IsoByRulesLetters(c: Character)
    requires c.LetterG? || c.LetterH? || c.LetterI? || c.LetterJ? || c.LetterK?
      || c.LetterL?
    ensures Iso16388.Encodation(Glyph(c)) ==
      Some(Interleave(BarRuleFlags(Rules(c).0), SpaceRuleFlags(Rules(c).1)))
  {
    match c
    case LetterG => case LetterH => case LetterI => case LetterJ => case LetterK =>
    case LetterL =>
    case _ => assert false;
  }

  lemma IsoByRulesMiddleLetters(c: Character)
    requires c.LetterM? || c.LetterN? || c.LetterO? || c.LetterP? || c.LetterQ?
      || c.LetterR?
    ensures Iso16388.Encodation(Glyph(c)) ==
      Some(Interleave(BarRuleFlags(Rules(c).0), SpaceRuleFlags(Rules(c).1)))
  {
    match c
    case LetterM => case LetterN => case LetterO => case LetterP => case LetterQ =>
    case LetterR =>
    case _ => assert false;
  }

  lemma IsoByRulesLateLetters(c: Character)
    requires c.LetterS? || c.LetterT? || c.LetterU? || c.LetterV? || c.LetterW?
      || c.LetterX? || c.LetterY? || c.LetterZ?
    ensures Iso16388.Encodation(Glyph(c)) ==
      Some(Interleave(BarRuleFlags(Rules(c).0), SpaceRuleFlags(Rules(c).1)))
  {
    match c
    case LetterS => case LetterT => case LetterU => case LetterV => case LetterW =>
    case LetterX => case LetterY => case LetterZ =>
    case _ => assert false;
  }

  lemma IsoByRulesPunctuation(c: Character)
    requires c.HyphenMinus? || c.FullStop? || c.Space? || c.DollarSign?
    ensures Iso16388.Encodation(Glyph(c)) ==
      Some(Interleave(BarRuleFlags(Rules(c).0), SpaceRuleFlags(Rules(c).1)))
  {
    match c
    case HyphenMinus => case FullStop => case Space => case DollarSign =>
    case _ => assert false;
  }

  lemma IsoByRulesSigns(c: Character)
    requires c.Slash? || c.PlusSign? || c.PercentSign? || c.Asterisk?
    ensures Iso16388.Encodation(Glyph(c)) ==
      Some(Interleave(BarRuleFlags(Rules(c).0), SpaceRuleFlags(Rules(c).1)))
  {
    match c
    case Slash => case PlusSign => case PercentSign => case Asterisk =>
    case _ => assert false;
  }

  /** The ISO table, row by row, is the two rule tables merged. */
  lemma IsoByRules(c: Character)
    ensures Iso16388.Encodation(Glyph(c)) ==
      Some(Interleave(BarRuleFlags(Rules(c).0), SpaceRuleFlags(Rules(c).1)))
  {
    match c
    case Digit0 | Digit1 | Digit2 | Digit3 | Digit4 | Digit5 | Digit6 | Digit7 | Digit8 | Digit9
      => IsoByRulesDigits(c);
    case LetterA | LetterB | LetterC | LetterD | LetterE | LetterF
      => IsoByRulesEarlyLetters(c);
    case LetterG | LetterH | LetterI | LetterJ | LetterK | LetterL
      => IsoByRulesLetters(c);
    case LetterM | LetterN | LetterO | LetterP | LetterQ | LetterR
      => IsoByRulesMiddleLetters(c);
    case LetterS | LetterT | LetterU | LetterV | LetterW | LetterX | LetterY | LetterZ
      => IsoByRulesLateLetters(c);
    case HyphenMinus | FullStop | Space | DollarSign
      => IsoByRulesPunctuation(c);
    case Slash | PlusSign | PercentSign | Asterisk
      => IsoByRulesSigns(c);
  }

  /** A character's wide flags, read off its two rules. */
  lemma FlagsOfRules(c: Character)
    ensures WideFlags(PatternOf(c)) == Interleave(BarFlags(Rules(c).0), SpaceFlags(Rules(c).1))
  {
    PatternOfRules(c);
    SlotFlags(BarMarks(Rules(c).0), SpaceMarks(Rules(c).1));
  }

  /** Every character's pattern is the one Table 1 of ISO/IEC 16388:2007
      gives for its glyph. */
  lemma MatchesIso16388(c: Character)
    ensures Iso16388.Encodation(Glyph(c)) == Some(WideFlags(PatternOf(c)))
  {
    FlagsOfRules(c);
    BarFlagsTable(Rules(c).0);
    SpaceFlagsTable(Rules(c).1);
    IsoByRules(c);
  }

  // ---------------------------------------------------------------------
  // Lookups

  /** Why a lookup fails: the `IllegalArgumentException` of each `valueOf`. */
  datatype Code39Error = InvalidNumber(number: int) | InvalidCharacter(character: char)

  /** The index the static initialiser builds: one `put(key(v), v)` per
      character, in declaration order. */
  function Index<K>(vs: seq<Character>, key: Character -> K): (m: map<K, Character>)
    ensures m.Keys == set k | 0 <= k < |vs| :: key(vs[k])
  {
    if vs == [] then map[]
    else
      var init, last := vs[..|vs| - 1], vs[|vs| - 1];
      var m := Index(init, key);
      assert forall k :: 0 <= k < |init| ==> init[k] == vs[k];
      m[key(last) := last]
  }

  /** When no two characters share a key, every character is found under
      its own key. */
  lemma {:induction false} IndexFinds<K>(vs: seq<Character>, key: Character -> K, j: nat)
    requires j < |vs|
    requires forall i, k :: 0 <= i < |vs| && 0 <= k < |vs| && key(vs[i]) == key(vs[k]) ==> vs[i] == vs[k]
    ensures key(vs[j]) in Index(vs, key) && Index(vs, key)[key(vs[j])] == vs[j]
  {
    var init, last := vs[..|vs| - 1], vs[|vs| - 1];
    if j < |vs| - 1 {
      assert init[j] == vs[j];
      IndexFinds(init, key, j);
    }
  }

  /** Position `i` of `values()` holds the character numbered `i`. */
  lemma ValueAt(i: nat)
    requires i < 44
    ensures |Values()| == 44 && Number(Values()[i]) == i
  {
    if i < 11 {
      ValueAtDigits(i);
    } else if i < 22 {
      ValueAtFirstLetters(i);
    } else if i < 28 {
      ValueAtMiddleLetters(i);
    } else if i < 33 {
      ValueAtLaterLetters(i);
    } else if i < 37 {
      ValueAtLastLetters(i);
    } else if i < 41 {
      ValueAtSigns(i);
    } else {
      ValueAtLastSigns(i);
    }
  }

  lemma ValueAtDigits(i: nat)
    requires i < 11
    ensures Number(Values()[i]) == i
  {
  }

  lemma ValueAtFirstLetters(i: nat)
    requires 11 <= i < 22
    ensures Number(Values()[i]) == i
  {
  }

  lemma ValueAtMiddleLetters(i: nat)
    requires 22 <= i < 28
    ensures Number(Values()[i]) == i
  {
  }

  lemma ValueAtLaterLetters(i: nat)
    requires 28 <= i < 33
    ensures Number(Values()[i]) == i
  {
  }

  lemma ValueAtLastLetters(i: nat)
    requires 33 <= i < 37
    ensures Number(Values()[i]) == i
  {
  }

  lemma ValueAtSigns(i: nat)
    requires 37 <= i < 41
    ensures Number(Values()[i]) == i
  {
  }

  lemma ValueAtLastSigns(i: nat)
    requires 41 <= i < 44
    ensures Number(Values()[i]) == i
  {
  }

  /** The character with ordinal `n`, if any: the ordinals read backwards. */
  function OfNumber(n: int): Option<Character>
  {
    match n
    case 0 => Some(Digit0) case 1 => Some(Digit1) case 2 => Some(Digit2) case 3 => Some(Digit3)
    case 4 => Some(Digit4) case 5 => Some(Digit5) case 6 => Some(Digit6) case 7 => Some(Digit7)
    case 8 => Some(Digit8) case 9 => Some(Digit9) case 10 => Some(LetterA) case 11 => Some(LetterB)
    case 12 => Some(LetterC) case 13 => Some(LetterD) case 14 => Some(LetterE) case 15 => Some(LetterF)
    case 16 => Some(LetterG) case 17 => Some(LetterH) case 18 => Some(LetterI) case 19 => Some(LetterJ)
    case 20 => Some(LetterK) case 21 => Some(LetterL) case 22 => Some(LetterM) case 23 => Some(LetterN)
    case 24 => Some(LetterO) case 25 => Some(LetterP) case 26 => Some(LetterQ) case 27 => Some(LetterR)
    case 28 => Some(LetterS) case 29 => Some(LetterT) case 30 => Some(LetterU) case 31 => Some(LetterV)
    case 32 => Some(LetterW) case 33 => Some(LetterX) case 34 => Some(LetterY) case 35 => Some(LetterZ)
    case 36 => Some(HyphenMinus) case 37 => Some(FullStop) case 38 => Some(Space) case 39 => Some(DollarSign)
    case 40 => Some(Slash) case 41 => Some(PlusSign) case 42 => Some(PercentSign) case 43 => Some(Asterisk)
    case _ => None
  }

  /** Reading the ordinals backwards finds every character by its number. */
  lemma OfNumberFindsDigits(c: Character)
    requires c.Digit0? || c.Digit1? || c.Digit2? || c.Digit3? || c.Digit4?
      || c.Digit5? || c.Digit6? || c.Digit7? || c.Digit8? || c.Digit9?
    ensures OfNumber(Number(c)) == Some(c)
  {
  }

  lemma OfNumberFindsEarlyLetters(c: Character)
    requires c.LetterA? || c.LetterB? || c.LetterC? || c.LetterD? || c.LetterE?
      || c.LetterF? || c.LetterG? || c.LetterH? || c.LetterI? || c.LetterJ?
      || c.LetterK? || c.LetterL?
    ensures OfNumber(Number(c)) == Some(c)
  {
  }

  lemma OfNumberFindsMiddleLetters(c: Character)
    requires c.LetterM? || c.LetterN? || c.LetterO? || c.LetterP? || c.LetterQ?
      || c.LetterR? || c.LetterS? || c.LetterT?
    ensures OfNumber(Number(c)) == Some(c)
  {
  }

  lemma OfNumberFindsLateLetters(c: Character)
    requires c.LetterU? || c.LetterV? || c.LetterW? || c.LetterX? || c.LetterY?
      || c.LetterZ?
    ensures OfNumber(Number(c)) == Some(c)
  {
  }

  lemma OfNumberFindsPunctuation(c: Character)
    requires c.HyphenMinus? || c.FullStop? || c.Space? || c.DollarSign?
    ensures OfNumber(Number(c)) == Some(c)
  {
  }

  lemma OfNumberFindsSigns(c: Character)
    requires c.Slash? || c.PlusSign? || c.PercentSign? || c.Asterisk?
    ensures OfNumber(Number(c)) == Some(c)
  {
  }

  lemma OfNumberFinds(c: Character)
    ensures OfNumber(Number(c)) == Some(c)
  {
    match c
    case Digit0 | Digit1 | Digit2 | Digit3 | Digit4 | Digit5 | Digit6 | Digit7 | Digit8 | Digit9 => OfNumberFindsDigits(c);
    case LetterA | LetterB | LetterC | LetterD | LetterE | LetterF | LetterG | LetterH | LetterI | LetterJ | LetterK | LetterL => OfNumberFindsEarlyLetters(c);
    case LetterM | LetterN | LetterO | LetterP | LetterQ | LetterR | LetterS | LetterT => OfNumberFindsMiddleLetters(c);
    case LetterU | LetterV | LetterW | LetterX | LetterY | LetterZ => OfNumberFindsLateLetters(c);
    case HyphenMinus | FullStop | Space | DollarSign => OfNumberFindsPunctuation(c);
    case Slash | PlusSign | PercentSign | Asterisk => OfNumberFindsSigns(c);
  }

  lemma NumberInjective(c1: Character, c2: Character)
    requires Number(c1) == Number(c2)
    ensures c1 == c2
  {
    OfNumberFinds(c1);
    OfNumberFinds(c2);
  }

  /** Every character occurs in `values()`, at the position of its number. */
  lemma ValuesNumbered(c: Character)
    ensures |Values()| == 44 && Values()[Number(c)] == c
  {
    ValueAt(Number(c));
    NumberInjective(Values()[Number(c)], c);
  }

  lemma GlyphInjective(c1: Character, c2: Character)
    requires Glyph(c1) == Glyph(c2)
    ensures c1 == c2
  {
    NumberIsCheckValue(c1);
    NumberIsCheckValue(c2);
    if c1 != Asterisk && c2 != Asterisk {
      NumberInjective(c1, c2);
    }
  }

  function NumberKey(c: Character): int
  {
    Number(c)
  }

  /** The map from ordinal to character. */
  function NumberIndex(): map<int, Character>
  {
    Index(Values(), NumberKey)
  }

  /** The map from glyph to character. */
  function CharacterIndex(): map<char, Character>
  {
    Index(Values(), Glyph)
  }

  /** Both keys identify a character: the indexes find every character. */
  lemma IndexesFind(c: Character)
    ensures Number(c) in NumberIndex() && NumberIndex()[Number(c)] == c
    ensures Glyph(c) in CharacterIndex() && CharacterIndex()[Glyph(c)] == c
  {
    var vs := Values();
    forall i, k | 0 <= i < |vs| && 0 <= k < |vs| && NumberKey(vs[i]) == NumberKey(vs[k])
      ensures vs[i] == vs[k]
    {
      NumberInjective(vs[i], vs[k]);
    }
    forall i, k | 0 <= i < |vs| && 0 <= k < |vs| && Glyph(vs[i]) == Glyph(vs[k])
      ensures vs[i] == vs[k]
    {
      GlyphInjective(vs[i], vs[k]);
    }
    ValuesNumbered(c);
    IndexFinds(vs, NumberKey, Number(c));
    IndexFinds(vs, Glyph, Number(c));
  }

  /** `valueOf(int)`: the character with the given ordinal. */
  function ValueOfNumber(number: int): Result<Character, Code39Error>
  {
    if number in NumberIndex() then Ok(NumberIndex()[number]) else Err(InvalidNumber(number))
  }

  /** Looking a character up by its own number gives it back. */
  lemma ValueOfNumberRoundTrip(c: Character)
    ensures ValueOfNumber(Number(c)) == Ok(c)
  {
    IndexesFind(c);
  }

  /** `valueOf(int)` succeeds exactly for 0..43, and then yields the
      character with that number; otherwise it fails naming the number. */
  lemma ValueOfNumberDefined(number: int)
    ensures ValueOfNumber(number).Ok? <==> 0 <= number < 44
    ensures ValueOfNumber(number).Ok? ==> Number(ValueOfNumber(number).value) == number
    ensures ValueOfNumber(number).Err? ==> ValueOfNumber(number).error == InvalidNumber(number)
  {
    var vs := Values();
    if 0 <= number < 44 {
      ValueAt(number);
      ValueOfNumberRoundTrip(vs[number]);
    }
  }

  /** `java.lang.Character.toUpperCase` on the characters that matter to the
      lookup: the ASCII letters, and the two other characters whose upper
      case is in the table (dotless i and long s). Every other character is
      left as it is. */
  function ToUpperCase(ch: char): char
  {
    if 'a' <= ch <= 'z' then (ch as int - 32) as char
    else if ch == '\U{131}' then 'I'
    else if ch == '\U{17F}' then 'S'
    else ch
  }

  /** `valueOf(char)`: the character whose glyph is the upper case of `ch`. */
  function ValueOfChar(ch: char): Result<Character, Code39Error>
  {
    var upper := ToUpperCase(ch);
    if upper in CharacterIndex() then Ok(CharacterIndex()[upper]) else Err(InvalidCharacter(ch))
  }

  /** The glyphs are upper case already. */
  lemma GlyphUpper(c: Character)
    ensures ToUpperCase(Glyph(c)) == Glyph(c)
  {
    match c
    case Digit0 => case Digit1 => case Digit2 => case Digit3 => case Digit4 =>
    case Digit5 => case Digit6 => case Digit7 => case Digit8 => case Digit9 =>
    case LetterA => case LetterB => case LetterC => case LetterD => case LetterE =>
    case LetterF => case LetterG => case LetterH => case LetterI => case LetterJ =>
    case LetterK => case LetterL => case LetterM => case LetterN => case LetterO =>
    case LetterP => case LetterQ => case LetterR => case LetterS => case LetterT =>
    case LetterU => case LetterV => case LetterW => case LetterX => case LetterY =>
    case LetterZ => case HyphenMinus => case FullStop => case Space => case DollarSign =>
    case Slash => case PlusSign => case PercentSign => case Asterisk =>
  }

  /** Looking a character up by its own glyph gives it back. */
  lemma ValueOfCharRoundTrip(c: Character)
    ensures ValueOfChar(Glyph(c)) == Ok(c)
  {
    GlyphUpper(c);
    IndexesFind(c);
  }

  /** The table's numbers are the character values of ISO/IEC 16388, and
      `*` has none. */
  lemma NumberIsCheckValue(c: Character)
    ensures Iso16388.CheckValue(Glyph(c)) == if c == Asterisk then None else Some(Number(c))
  {
    match c
    case Digit0 => case Digit1 => case Digit2 => case Digit3 => case Digit4 =>
    case Digit5 => case Digit6 => case Digit7 => case Digit8 => case Digit9 =>
    case LetterA => case LetterB => case LetterC => case LetterD => case LetterE =>
    case LetterF => case LetterG => case LetterH => case LetterI => case LetterJ =>
    case LetterK => case LetterL => case LetterM => case LetterN => case LetterO =>
    case LetterP => case LetterQ => case LetterR => case LetterS => case LetterT =>
    case LetterU => case LetterV => case LetterW => case LetterX => case LetterY =>
    case LetterZ => case HyphenMinus => case FullStop => case Space => case DollarSign =>
    case Slash => case PlusSign => case PercentSign => case Asterisk =>
  }

  /** The glyphs of the table are exactly the characters ISO/IEC 16388
      encodes. */
  lemma GlyphsAreIsoCharacters(ch: char)
    ensures (exists c :: Glyph(c) == ch) <==> Iso16388.Encodation(ch).Some?
  {
    Iso16388.Encodable(ch);
    if Iso16388.Encodation(ch).Some? {
      if ch == '*' {
        assert Glyph(Asterisk) == ch;
      } else {
        var n := Iso16388.CheckValue(ch).value;
        ValueOfNumberDefined(n);
        var c := ValueOfNumber(n).value;
        NumberIsCheckValue(c);
        Iso16388.CheckValueInjective(ch, Glyph(c));
      }
    } else {
      forall c: Character ensures Glyph(c) != ch {
        NumberIsCheckValue(c);
      }
    }
  }

  /** What `valueOf(char)` finds has the upper case of `ch` as its glyph;
      when it finds nothing, it fails naming `ch`. */
  lemma ValueOfCharFound(ch: char)
    ensures ValueOfChar(ch).Ok? ==> Glyph(ValueOfChar(ch).value) == ToUpperCase(ch)
    ensures ValueOfChar(ch).Err? ==> ValueOfChar(ch).error == InvalidCharacter(ch)
  {
    var upper := ToUpperCase(ch);
    var vs := Values();
    if upper in CharacterIndex() {
      var k :| 0 <= k < |vs| && Glyph(vs[k]) == upper;
      IndexesFind(vs[k]);
    }
  }

  /** `valueOf(char)` succeeds exactly when the upper case of `ch` is a
      character ISO/IEC 16388 encodes, and then yields the character with
      that glyph; otherwise it fails naming `ch`. */
  lemma ValueOfCharDefined(ch: char)
    ensures ValueOfChar(ch).Ok? <==> Iso16388.Encodation(ToUpperCase(ch)).Some?
  {
    var upper := ToUpperCase(ch);
    GlyphsAreIsoCharacters(upper);
    if c :| Glyph(c) == upper {
      IndexesFind(c);
    }
  }

  /** A lower-case letter finds the character its upper case finds. */
  lemma ValueOfCharCaseInsensitive(ch: char)
    requires 'a' <= ch <= 'z'
    ensures ValueOfChar(ch).Ok?
    ensures ValueOfChar(ch) == ValueOfChar((ch as int - 32) as char)
  {
    var upper := (ch as int - 32) as char;
    ValueOfCharDefined(ch);
    ValueOfCharDefined(upper);
    Iso16388.Encodable(upper);
  }

  // ---------------------------------------------------------------------
  // The check character

  /** The sum of the numbers of the characters. */
  function SumNumbers(cs: seq<Character>): nat
  {
    if cs == [] then 0 else SumNumbers(cs[..|cs| - 1]) + Number(cs[|cs| - 1])
  }

  /** The glyphs of the characters, in order. */
  function Glyphs(cs: seq<Character>): (s: string)
    ensures |s| == |cs|
  {
    if cs == [] then [] else Glyphs(cs[..|cs| - 1]) + [Glyph(cs[|cs| - 1])]
  }

  /** The accumulator of `encode` after the characters `cs`: each step adds
      the character's number and reduces modulo 43. */
  function Checksum(cs: seq<Character>): nat
  {
    if cs == [] then 0 else (Checksum(cs[..|cs| - 1]) + Number(cs[|cs| - 1])) % 43
  }

  /** Reducing at every step gives the sum of all numbers modulo 43, so the
      accumulator never leaves 0..42. */
  lemma {:induction false} ChecksumIsSumModulo(cs: seq<Character>)
    ensures Checksum(cs) == SumNumbers(cs) % 43 && Checksum(cs) < 43
  {
    if cs != [] {
      var init := cs[..|cs| - 1];
      ChecksumIsSumModulo(init);
      ModuloOfSum(SumNumbers(init), Number(cs[|cs| - 1]));
    }
  }

  lemma ModuloOfSum(a: nat, b: nat)
    ensures (a % 43 + b) % 43 == (a + b) % 43
  {
    var q := a / 43;
    assert a == 43 * q + a % 43;
    assert a + b == 43 * q + (a % 43 + b);
  }

  /** A `*` in the input is accepted and counts 43, which is 0 modulo 43. */
  lemma ChecksumSkipsAsterisk(cs: seq<Character>)
    ensures Checksum(cs + [Asterisk]) == Checksum(cs)
  {
    assert (cs + [Asterisk])[..|cs|] == cs;
    ChecksumIsSumModulo(cs);
    assert Number(Asterisk) == 43;
  }

  /** `valueOf(checkDigit)`: the check character for the characters `cs`. */
  function CheckCharacter(cs: seq<Character>): (r: Character)
    ensures Number(r) == SumNumbers(cs) % 43
    ensures r != Asterisk
  {
    ChecksumIsSumModulo(cs);
    CheckLookup(Checksum(cs));
    ValueOfNumber(Checksum(cs)).value
  }

  /** A remainder modulo 43 names a character other than `*`. */
  lemma CheckLookup(n: nat)
    requires n < 43
    ensures ValueOfNumber(n).Ok? && Number(ValueOfNumber(n).value) == n
    ensures ValueOfNumber(n).value != Asterisk
  {
    ValueOfNumberDefined(n);
    assert Number(Asterisk) == 43;
  }

  /** Without a `*` in the input, the characters' values are the ISO/IEC
      16388 values of their glyphs. */
  lemma {:induction false} SumIsValueSum(cs: seq<Character>)
    requires Asterisk !in cs
    ensures Iso16388.ValueSum(Glyphs(cs)) == Some(SumNumbers(cs))
  {
    if cs != [] {
      var init := cs[..|cs| - 1];
      assert Asterisk !in init by {
        forall k | 0 <= k < |init| ensures init[k] != Asterisk {
          assert init[k] == cs[k];
        }
      }
      SumIsValueSum(init);
      SumIsValueSumStep(cs);
    }
  }

  /** The step of `SumIsValueSum`: one more character adds its number. */
  lemma SumIsValueSumStep(cs: seq<Character>)
    requires cs != [] && cs[|cs| - 1] != Asterisk
    requires Iso16388.ValueSum(Glyphs(cs[..|cs| - 1])) == Some(SumNumbers(cs[..|cs| - 1]))
    ensures Iso16388.ValueSum(Glyphs(cs)) == Some(SumNumbers(cs))
  {
    var init, last := cs[..|cs| - 1], cs[|cs| - 1];
    SnocFacts(cs);
    Iso16388.ValueSumSnoc(Glyphs(cs), Glyphs(init), Glyph(last), SumNumbers(init), Number(last), SumNumbers(cs));
  }

  /** Appending a character appends its glyph and adds its number; a
      character other than `*` has its number as its value. */
  lemma SnocFacts(cs: seq<Character>)
    requires cs != []
    ensures Glyphs(cs) == Glyphs(cs[..|cs| - 1]) + [Glyph(cs[|cs| - 1])]
    ensures SumNumbers(cs) == SumNumbers(cs[..|cs| - 1]) + Number(cs[|cs| - 1])
    ensures cs[|cs| - 1] != Asterisk ==> Iso16388.CheckValue(Glyph(cs[|cs| - 1])) == Some(Number(cs[|cs| - 1]))
  {
    NumberIsCheckValue(cs[|cs| - 1]);
  }

  /** The check character `encode` draws is the modulo-43 check character
      ISO/IEC 16388 specifies for the same data. */
  lemma CheckCharacterMatchesIso16388(cs: seq<Character>)
    requires Asterisk !in cs
    ensures Iso16388.CheckCharacter(Glyphs(cs)) == Some(Glyph(CheckCharacter(cs)))
  {
    SumIsValueSum(cs);
    var v := SumNumbers(cs) % 43;
    var c := CheckCharacter(cs);
    Iso16388.ValueOrder(v);
    NumberIsCheckValue(c);
    Iso16388.CheckValueInjective(Iso16388.DataCharacter(v), Glyph(c));
  }

  /** The check character is the one whose number is the sum modulo 43. */
  lemma CheckCharacterByNumber(cs: seq<Character>, c: Character)
    requires Number(c) == SumNumbers(cs) % 43
    ensures CheckCharacter(cs) == c
  {
    NumberInjective(CheckCharacter(cs), c);
  }

  /** The check character of "123" is '6'. */
  lemma CheckCharacterExample()
    ensures CheckCharacter([Digit1, Digit2, Digit3]) == Digit6
  {
    var cs := [Digit1, Digit2, Digit3];
    assert SumNumbers(cs[..1]) == 1 by {
      assert cs[..1][..0] == [];
      assert Number(Digit1) == 1;
    }
    assert SumNumbers(cs[..2]) == 3 by {
      assert cs[..2][..1] == cs[..1];
      assert Number(Digit2) == 2;
    }
    assert SumNumbers(cs) == 6 by {
      assert cs[..2] == cs[..|cs| - 1];
      assert Number(Digit3) == 3;
    }
    assert Number(Digit6) == 6;
    CheckCharacterByNumber(cs, Digit6);
  }

  // ---------------------------------------------------------------------
  // Drawing

  /** The length `draw` gives a symbol: `wide` for a wide one, 1 otherwise. */
  function Width(s: Symbol, wide: real): real
  {
    if s.IsWide() then wide else 1.0
  }

  /** The strokes drawing the symbols `p` makes, one per symbol. */
  function SymbolStrokes(p: seq<Symbol>, wide: real): (r: seq<Stroke>)
    ensures |r| == |p|
  {
    if p == [] then []
    else
      var last := p[|p| - 1];
      SymbolStrokes(p[..|p| - 1], wide) + [Stroke(last.IsBar(), Width(last, wide))]
  }

  lemma SymbolStrokesStep(p: seq<Symbol>, k: nat, wide: real)
    requires k < |p|
    ensures SymbolStrokes(p[..k + 1], wide) == SymbolStrokes(p[..k], wide) + [Stroke(p[k].IsBar(), Width(p[k], wide))]
  {
    assert p[..k + 1][..k] == p[..k];
  }

  /** The strokes drawing a character makes. */
  function CharacterStrokes(c: Character, wide: real): seq<Stroke>
  {
    SymbolStrokes(PatternOf(c), wide)
  }

  /** The number of wide symbols of `p`. */
  function WideCount(p: seq<Symbol>): (n: nat)
    ensures n <= |p|
  {
    if p == [] then 0 else WideCount(p[..|p| - 1]) + (if p[|p| - 1].IsWide() then 1 else 0)
  }

  lemma {:induction false} WideCountIsCount(p: seq<Symbol>)
    ensures WideCount(p) == TallyOf(p).wideBars + TallyOf(p).wideSpaces
    ensures |p| - WideCount(p) == TallyOf(p).narrowBars + TallyOf(p).narrowSpaces
  {
    if p != [] {
      WideCountIsCount(p[..|p| - 1]);
    }
  }

  /** The strokes of `p` hold one bar per bar symbol. */
  lemma {:induction false} SymbolStrokesBars(p: seq<Symbol>, wide: real)
    ensures BarCount(SymbolStrokes(p, wide)) == TallyOf(p).narrowBars + TallyOf(p).wideBars
  {
    if p != [] {
      var init := p[..|p| - 1];
      SymbolStrokesBars(init, wide);
      var h := SymbolStrokes(p, wide);
      assert h[..|h| - 1] == SymbolStrokes(init, wide);
    }
  }

  /** `n` copies of `x` added up: the length of `n` equal strokes. */
  function Scaled(n: nat, x: real): real
  {
    if n == 0 then 0.0 else Scaled(n - 1, x) + x
  }

  lemma {:induction false} ScaledIsProduct(n: nat, x: real)
    ensures Scaled(n, x) == n as real * x
  {
    if n > 0 {
      ScaledIsProduct(n - 1, x);
      assert n as real * x == (n - 1) as real * x + x;
    }
  }

  /** The strokes of `p` are 1 long per narrow symbol and `wide` per wide one. */
  lemma {:induction false} SymbolStrokesTotal(p: seq<Symbol>, wide: real)
    ensures Total(SymbolStrokes(p, wide)) == (|p| - WideCount(p)) as real + Scaled(WideCount(p), wide)
  {
    if p != [] {
      var init, last := p[..|p| - 1], p[|p| - 1];
      SymbolStrokesTotal(init, wide);
      var h := SymbolStrokes(p, wide);
      assert h[..|h| - 1] == SymbolStrokes(init, wide);
    }
  }

  /** Nine symbols, five of them bars and three of them wide, draw nine
      strokes: five bars, `6 + 3 * wide` long in all. */
  lemma PatternMeasure(p: seq<Symbol>, wide: real)
    requires |p| == PatternLength
    requires TallyOf(p).narrowBars + TallyOf(p).wideBars == 5
    requires TallyOf(p).wideBars + TallyOf(p).wideSpaces == 3
    ensures |SymbolStrokes(p, wide)| == PatternLength
    ensures BarCount(SymbolStrokes(p, wide)) == 5
    ensures Total(SymbolStrokes(p, wide)) == 6.0 + 3.0 * wide
  {
    WideCountIsCount(p);
    SymbolStrokesBars(p, wide);
    SymbolStrokesTotal(p, wide);
    ScaledIsProduct(3, wide);
  }

  /** Every character draws nine strokes: five bars, and six narrow and three
      wide elements, so `6 + 3 * wide` in all. */
  lemma CharacterMeasure(c: Character, wide: real)
    ensures |CharacterStrokes(c, wide)| == PatternLength
    ensures BarCount(CharacterStrokes(c, wide)) == 5
    ensures Total(CharacterStrokes(c, wide)) == 6.0 + 3.0 * wide
  {
    var p := PatternOf(c);
    PatternShape(c);
    SymbolCounts(c);
    PatternMeasure(p, wide);
  }

  // ---------------------------------------------------------------------
  // What `encode` draws

  /** The characters of `value` looked up one after the other with `find`;
      the first character `find` fails on stops the lookup with its error. */
  function LookUpEach<T>(value: string, find: char -> Result<T, Code39Error>): Result<seq<T>, Code39Error>
  {
    if value == [] then Ok([])
    else
      match LookUpEach(value[..|value| - 1], find)
      case Err(e) => Err(e)
      case Ok(xs) =>
        match find(value[|value| - 1])
        case Err(e) => Err(e)
        case Ok(x) => Ok(xs + [x])
  }

  /** The lookup succeeds exactly when `find` succeeds on every character,
      and then holds what `find` found, in order. */
  lemma {:induction false} LookUpEachOk<T>(value: string, find: char -> Result<T, Code39Error>)
    ensures LookUpEach(value, find).Ok? <==> forall i :: 0 <= i < |value| ==> find(value[i]).Ok?
    ensures LookUpEach(value, find).Ok? ==>
      && |LookUpEach(value, find).value| == |value|
      && forall i :: 0 <= i < |value| ==> LookUpEach(value, find).value[i] == find(value[i]).value
  {
    if value != [] {
      var init := value[..|value| - 1];
      LookUpEachOk(init, find);
      assert forall i :: 0 <= i < |init| ==> init[i] == value[i];
    }
  }

  /** A failed lookup fails with the error of the first character `find`
      fails on. */
  lemma {:induction false} LookUpEachError<T>(value: string, find: char -> Result<T, Code39Error>)
    requires LookUpEach(value, find).Err?
    ensures exists i ::
      (&& 0 <= i < |value| && find(value[i]).Err?
       && LookUpEach(value, find).error == find(value[i]).error
       && (forall j :: 0 <= j < i ==> find(value[j]).Ok?))
  {
    var init, last := value[..|value| - 1], value[|value| - 1];
    assert forall i :: 0 <= i < |init| ==> init[i] == value[i];
    if LookUpEach(init, find).Err? {
      LookUpEachError(init, find);
      var i :| 0 <= i < |init| && find(init[i]).Err?
        && LookUpEach(init, find).error == find(init[i]).error
        && (forall j :: 0 <= j < i ==> find(init[j]).Ok?);
      assert value[i] == init[i];
    } else {
      LookUpEachOk(init, find);
      assert find(value[|value| - 1]).Err?;
    }
  }

  /** A failure within a prefix is the failure of the whole input. */
  lemma {:induction false} LookUpEachPrefixError<T>(value: string, find: char -> Result<T, Code39Error>, n: nat)
    requires n <= |value| && LookUpEach(value[..n], find).Err?
    ensures LookUpEach(value, find) == LookUpEach(value[..n], find)
    decreases |value| - n
  {
    if n < |value| {
      assert value[..n + 1][..n] == value[..n];
      LookUpEachPrefixError(value, find, n + 1);
    } else {
      assert value[..n] == value;
    }
  }

  /** One more character looked up. */
  lemma LookUpEachStep<T>(value: string, find: char -> Result<T, Code39Error>, i: nat)
    requires i < |value| && LookUpEach(value[..i], find).Ok?
    ensures find(value[i]).Ok? ==>
      LookUpEach(value[..i + 1], find) == Ok(LookUpEach(value[..i], find).value + [find(value[i]).value])
    ensures find(value[i]).Err? ==> LookUpEach(value[..i + 1], find) == Err(find(value[i]).error)
  {
    assert value[..i + 1][..i] == value[..i];
  }

  /** The characters of `value` looked up one after the other; the first
      character that is not in the table stops the lookup with its error. */
  function ValueOfChars(value: string): Result<seq<Character>, Code39Error>
  {
    LookUpEach(value, ValueOfChar)
  }

  /** The upper case of each character of `value`. */
  function UpperCase(value: string): (r: string)
    ensures |r| == |value|
  {
    if value == [] then [] else UpperCase(value[..|value| - 1]) + [ToUpperCase(value[|value| - 1])]
  }

  lemma {:induction false} UpperCaseAt(value: string, i: nat)
    requires i < |value|
    ensures UpperCase(value)[i] == ToUpperCase(value[i])
  {
    if i < |value| - 1 {
      UpperCaseAt(value[..|value| - 1], i);
    }
  }

  lemma {:induction false} GlyphsAt(cs: seq<Character>, i: nat)
    requires i < |cs|
    ensures Glyphs(cs)[i] == Glyph(cs[i])
  {
    if i < |cs| - 1 {
      GlyphsAt(cs[..|cs| - 1], i);
    }
  }

  /** The lookup of `value` succeeds exactly when every character of it is
      in the table up to case. */
  lemma ValueOfCharsOk(value: string)
    ensures ValueOfChars(value).Ok? <==> forall i :: 0 <= i < |value| ==> ValueOfChar(value[i]).Ok?
  {
    LookUpEachOk(value, ValueOfChar);
  }

  /** A successful lookup yields one character per input character, whose
      glyph is the input character upper-cased. */
  lemma ValueOfCharsGlyphs(value: string)
    requires ValueOfChars(value).Ok?
    ensures Glyphs(ValueOfChars(value).value) == UpperCase(value)
  {
    var cs := ValueOfChars(value).value;
    LookUpEachOk(value, ValueOfChar);
    forall i | 0 <= i < |value|
      ensures Glyphs(cs)[i] == UpperCase(value)[i]
    {
      ValueOfCharFound(value[i]);
      GlyphsAt(cs, i);
      UpperCaseAt(value, i);
    }
  }

  /** A failed lookup names the first input character that is not in the
      table up to case. */
  lemma ValueOfCharsError(value: string)
    requires ValueOfChars(value).Err?
    ensures exists i ::
      (&& 0 <= i < |value| && ValueOfChar(value[i]).Err?
       && ValueOfChars(value).error == InvalidCharacter(value[i])
       && (forall j :: 0 <= j < i ==> ValueOfChar(value[j]).Ok?))
  {
    LookUpEachError(value, ValueOfChar);
    var i :| 0 <= i < |value| && ValueOfChar(value[i]).Err?
      && ValueOfChars(value).error == ValueOfChar(value[i]).error
      && (forall j :: 0 <= j < i ==> ValueOfChar(value[j]).Ok?);
    ValueOfCharFound(value[i]);
  }

  /** The check character `encode` adds, when the check character is on. */
  function CheckPart(cs: seq<Character>, checkDigit: bool): (r: seq<Character>)
    ensures |r| <= 1
  {
    if checkDigit then [CheckCharacter(cs)] else []
  }

  /** The characters `encode` draws after the leading `*`: the data, the
      check part and the closing `*`. */
  function Framed(cs: seq<Character>, check: seq<Character>): seq<Character>
  {
    cs + check + [Asterisk]
  }

  /** Each character drawn after a character gap. */
  function Run(cs: seq<Character>, characterGap: real, wide: real): seq<Stroke>
  {
    if cs == [] then []
    else Run(cs[..|cs| - 1], characterGap, wide) + [Stroke(false, characterGap)] + CharacterStrokes(cs[|cs| - 1], wide)
  }

  /** Every stroke `encode` draws, in order: a margin, `*`, each framed
      character after a gap, and a margin. */
  function EncodedStrokes(cs: seq<Character>, check: seq<Character>, margin: real, characterGap: real, wide: real): seq<Stroke>
  {
    [Stroke(false, margin)] + CharacterStrokes(Asterisk, wide)
      + Run(Framed(cs, check), characterGap, wide) + [Stroke(false, margin)]
  }

  /** The label `encode` writes: one glyph per drawn character. */
  function EncodedText(cs: seq<Character>, check: seq<Character>): string
  {
    "*" + Glyphs(Framed(cs, check))
  }

  lemma {:induction false} GlyphsAppend(a: seq<Character>, b: seq<Character>)
    ensures Glyphs(a + b) == Glyphs(a) + Glyphs(b)
    decreases |b|
  {
    if b == [] {
      assert a + b == a;
    } else {
      assert (a + b)[..|a + b| - 1] == a + b[..|b| - 1];
      GlyphsAppend(a, b[..|b| - 1]);
    }
  }

  lemma GlyphsSingle(c: Character)
    ensures Glyphs([c]) == [Glyph(c)]
  {
    assert [c][..0] == [];
  }

  /** The label is `*`, the data's glyphs, the check part's glyph and `*`. */
  lemma EncodedTextShape(cs: seq<Character>, check: seq<Character>)
    ensures EncodedText(cs, check) == "*" + Glyphs(cs) + Glyphs(check) + "*"
  {
    GlyphsAppend(cs + check, [Asterisk]);
    GlyphsAppend(cs, check);
    GlyphsSingle(Asterisk);
    Appended("*", Glyphs(cs), Glyphs(check));
  }

  /** A run of `n` characters draws `5 * n` bars and has
      `n * (characterGap + 6 + 3 * wide)` length. */
  lemma {:induction false} RunMeasure(cs: seq<Character>, characterGap: real, wide: real)
    ensures BarCount(Run(cs, characterGap, wide)) == 5 * |cs|
    ensures Total(Run(cs, characterGap, wide)) == Scaled(|cs|, characterGap + 6.0 + 3.0 * wide)
  {
    if cs != [] {
      var init, last := cs[..|cs| - 1], cs[|cs| - 1];
      RunMeasure(init, characterGap, wide);
      CharacterMeasure(last, wide);
      var gap := [Stroke(false, characterGap)];
      var prefix := Run(init, characterGap, wide);
      TotalAppend(prefix + gap, CharacterStrokes(last, wide));
      TotalAppend(prefix, gap);
      BarCountAppend(prefix + gap, CharacterStrokes(last, wide));
      BarCountAppend(prefix, gap);
      assert Total(gap) == characterGap && BarCount(gap) == 0 by {
        assert gap[..0] == [];
      }
    }
  }

  /** The strokes framed by two margins. */
  lemma FramedByMargins(margin: real, star: seq<Stroke>, run: seq<Stroke>)
    ensures var h := [Stroke(false, margin)] + star + run + [Stroke(false, margin)];
      && BarCount(h) == BarCount(star) + BarCount(run)
      && Total(h) == 2.0 * margin + Total(star) + Total(run)
  {
    var m := [Stroke(false, margin)];
    TotalAppend(m + star + run, m);
    TotalAppend(m + star, run);
    TotalAppend(m, star);
    BarCountAppend(m + star + run, m);
    BarCountAppend(m + star, run);
    BarCountAppend(m, star);
    assert Total(m) == margin && BarCount(m) == 0 by {
      assert m[..0] == [];
    }
  }

  /** `h` is a start character and a run of `n` characters after gaps,
      framed by two margins, where each character has five bars and is
      `6 + 3 * wide` long. */
  predicate FramedPieces(h: seq<Stroke>, star: seq<Stroke>, run: seq<Stroke>, n: nat, margin: real, characterGap: real, wide: real)
  {
    && h == [Stroke(false, margin)] + star + run + [Stroke(false, margin)]
    && BarCount(star) == 5 && Total(star) == 6.0 + 3.0 * wide
    && BarCount(run) == 5 * n && Total(run) == Scaled(n, characterGap + 6.0 + 3.0 * wide)
  }

  /** Such strokes hold the bars of `n + 1` characters, and their lengths,
      `n` gaps and two margins. */
  lemma FramedMeasure(h: seq<Stroke>, star: seq<Stroke>, run: seq<Stroke>, n: nat, margin: real, characterGap: real, wide: real)
    requires FramedPieces(h, star, run, n, margin, characterGap, wide)
    ensures BarCount(h) == 5 * (n + 1)
    ensures Total(h) == 2.0 * margin + n as real * characterGap + (n + 1) as real * (6.0 + 3.0 * wide)
  {
    FramedByMargins(margin, star, run);
    ScaledIsProduct(n, characterGap + 6.0 + 3.0 * wide);
    RunLength(n, margin, characterGap, 6.0 + 3.0 * wide);
  }

  lemma RunLength(n: nat, margin: real, gap: real, w: real)
    ensures 2.0 * margin + w + n as real * (gap + w)
      == 2.0 * margin + n as real * gap + (n + 1) as real * w
  {
  }

  /** The number of characters `encode` draws after the leading `*`: the
      data, the check part and the closing `*`. */
  function Drawn(cs: seq<Character>, check: seq<Character>): nat
  {
    |cs| + |check| + 1
  }

  /** `encode` draws five bars per character, and its image is two margins,
      a gap before each character but the first and `6 + 3 * wide` per
      character long, where `Drawn(cs, check) + 1` characters are drawn:
      `*`, the data, the check part and `*`. */
  lemma EncodedMeasure(cs: seq<Character>, check: seq<Character>, margin: real, characterGap: real, wide: real)
    ensures BarCount(EncodedStrokes(cs, check, margin, characterGap, wide)) == 5 * (Drawn(cs, check) + 1)
    ensures Total(EncodedStrokes(cs, check, margin, characterGap, wide))
      == 2.0 * margin + Drawn(cs, check) as real * characterGap + (Drawn(cs, check) + 1) as real * (6.0 + 3.0 * wide)
  {
    EncodedPieces(cs, check, margin, characterGap, wide);
    FramedMeasure(EncodedStrokes(cs, check, margin, characterGap, wide), CharacterStrokes(Asterisk, wide),
      Run(Framed(cs, check), characterGap, wide), Drawn(cs, check), margin, characterGap, wide);
  }

  /** The pieces of what `encode` draws, measured. */
  lemma EncodedPieces(cs: seq<Character>, check: seq<Character>, margin: real, characterGap: real, wide: real)
    ensures FramedPieces(EncodedStrokes(cs, check, margin, characterGap, wide), CharacterStrokes(Asterisk, wide),
      Run(Framed(cs, check), characterGap, wide), Drawn(cs, check), margin, characterGap, wide)
  {
    RunMeasure(Framed(cs, check), characterGap, wide);
    CharacterMeasure(Asterisk, wide);
    assert |Framed(cs, check)| == Drawn(cs, check);
  }

  // ---------------------------------------------------------------------
  // The encoder and its drawer

  /** The barcode encoder and its configuration. */
  class Code39 {
    var checkDigit: bool
    var wide: real
    var characterGap: real
    var margin: real

    /** An encoder with the given check-character setting and the default
        margin 10, character gap 1 and wide ratio 2.25. */
    constructor (checkDigit: bool)
      ensures this.checkDigit == checkDigit
      ensures margin == 10.0 && characterGap == 1.0 && wide == 2.25
    {
      this.checkDigit := checkDigit;
      margin := 10.0;
      characterGap := 1.0;
      wide := 2.25;
    }

    /** The no-argument constructor: the check character is on. */
    constructor Default()
      ensures checkDigit
      ensures margin == 10.0 && characterGap == 1.0 && wide == 2.25
    {
      checkDigit := true;
      margin := 10.0;
      characterGap := 1.0;
      wide := 2.25;
    }

    method SetCheckDigit(value: bool)
      modifies this
      ensures checkDigit == value
      ensures wide == old(wide) && characterGap == old(characterGap) && margin == old(margin)
    {
      checkDigit := value;
    }

    method SetMargin(value: real)
      modifies this
      ensures margin == value
      ensures checkDigit == old(checkDigit) && wide == old(wide) && characterGap == old(characterGap)
    {
      margin := value;
    }

    method SetCharacterGap(value: real)
      modifies this
      ensures characterGap == value
      ensures checkDigit == old(checkDigit) && wide == old(wide) && margin == old(margin)
    {
      characterGap := value;
    }

    method SetWide(value: real)
      modifies this
      ensures wide == value
      ensures checkDigit == old(checkDigit) && characterGap == old(characterGap) && margin == old(margin)
    {
      wide := value;
    }

    /** `encode(value)`: a margin and `*`, then each character of `value`
        after a gap, the check character after a gap when it is on, and `*`
        and a margin after a gap. A character that is not in the table up to
        case stops the encoding with its error, and no image is returned. */
    method Encode(value: string) returns (r: Result<OneDimensionalImage, Code39Error>)
      ensures ValueOfChars(value).Err? ==> r == Err(ValueOfChars(value).error)
      ensures ValueOfChars(value).Ok? ==> r.Ok?
      ensures r.Ok? ==>
        var cs := ValueOfChars(value).value;
        var check := CheckPart(cs, checkDigit);
        && fresh(r.value) && r.value.Valid()
        && r.value.strokes == EncodedStrokes(cs, check, margin, characterGap, wide)
        && r.value.text == EncodedText(cs, check)
    {
      var drawer := new Drawer(this);
      DrawOpening(drawer);
      var data := DrawData(drawer, value);
      if data.Err? {
        return Err(data.error);
      }
      ghost var cs := ValueOfChars(value).value;
      DrawClosing(drawer, cs, data.value);
      r := Ok(drawer.image);
    }
  }

  /** The loop of `encode`: each character of `value` looked up, drawn after
      a gap and added to the accumulator, which is returned; the first
      character not in the table stops the loop with its error. */
  method DrawData(drawer: Drawer, value: string) returns (r: Result<int, Code39Error>)
    requires drawer.image.Valid()
    modifies drawer.image
    ensures drawer.image.Valid()
    ensures ValueOfChars(value).Err? ==> r == Err(ValueOfChars(value).error)
    ensures ValueOfChars(value).Ok? ==>
      var cs := ValueOfChars(value).value;
      && r == Ok(Checksum(cs))
      && drawer.image.strokes == old(drawer.image.strokes) + Run(cs, drawer.code.characterGap, drawer.code.wide)
      && drawer.image.text == old(drawer.image.text) + Glyphs(cs)
  {
    var sum := 0;
    ghost var cs: seq<Character> := [];
    for i := 0 to |value|
      invariant drawer.image.Valid()
      invariant ValueOfChars(value[..i]) == Ok(cs)
      invariant sum == Checksum(cs)
      invariant drawer.image.strokes == old(drawer.image.strokes) + Run(cs, drawer.code.characterGap, drawer.code.wide)
      invariant drawer.image.text == old(drawer.image.text) + Glyphs(cs)
    {
      var found := ValueOfChar(value[i]);
      ValueOfCharsStep(value, i);
      if found.Err? {
        ValueOfCharsPrefixError(value, i + 1);
        return Err(found.error);
      }
      var character := found.value;
      drawer.DrawCharacterGap();
      drawer.DrawCharacter(character);
      RunStep(cs, character, drawer.code.characterGap, drawer.code.wide);
      AppendedAfter(old(drawer.image.strokes), Run(cs, drawer.code.characterGap, drawer.code.wide),
        [Stroke(false, drawer.code.characterGap)], CharacterStrokes(character, drawer.code.wide));
      Appended(old(drawer.image.text), Glyphs(cs), [Glyph(character)]);
      ChecksumStep(cs, character, sum);
      sum := (sum + Number(character)) % 43;
      cs := cs + [character];
    }
    assert value[..|value|] == value;
    r := Ok(sum);
  }

  /** The start of `encode`: the margin, then `*`. */
  method DrawOpening(drawer: Drawer)
    requires drawer.image.Valid() && drawer.image.strokes == [] && drawer.image.text == []
    modifies drawer.image
    ensures drawer.image.Valid()
    ensures drawer.image.strokes == [Stroke(false, drawer.code.margin)] + CharacterStrokes(Asterisk, drawer.code.wide)
    ensures drawer.image.text == "*"
  {
    drawer.DrawMargin();
    drawer.DrawCharacter(Asterisk);
  }

  /** The end of `encode`: the check character after a gap when it is on,
      then `*` after a gap, then the margin. */
  method DrawClosing(drawer: Drawer, ghost cs: seq<Character>, sum: int)
    requires drawer.image.Valid() && sum == Checksum(cs)
    requires drawer.image.strokes ==
      [Stroke(false, drawer.code.margin)] + CharacterStrokes(Asterisk, drawer.code.wide)
      + Run(cs, drawer.code.characterGap, drawer.code.wide)
    requires drawer.image.text == "*" + Glyphs(cs)
    modifies drawer.image
    ensures drawer.image.Valid()
    ensures var check := CheckPart(cs, drawer.code.checkDigit);
      && drawer.image.strokes ==
        EncodedStrokes(cs, check, drawer.code.margin, drawer.code.characterGap, drawer.code.wide)
      && drawer.image.text == EncodedText(cs, check)
  {
    ghost var head := [Stroke(false, drawer.code.margin)] + CharacterStrokes(Asterisk, drawer.code.wide);
    ghost var check := CheckPart(cs, drawer.code.checkDigit);
    if drawer.code.checkDigit {
      var checkCharacter := CheckByNumber(cs, sum);
      drawer.DrawCharacterGap();
      drawer.DrawCharacter(checkCharacter);
      RunStep(cs, checkCharacter, drawer.code.characterGap, drawer.code.wide);
      AppendedAfter(head, Run(cs, drawer.code.characterGap, drawer.code.wide),
        [Stroke(false, drawer.code.characterGap)], CharacterStrokes(checkCharacter, drawer.code.wide));
      Appended("*", Glyphs(cs), [Glyph(checkCharacter)]);
    } else {
      assert cs + check == cs;
    }
    drawer.DrawCharacterGap();
    drawer.DrawCharacter(Asterisk);
    RunStep(cs + check, Asterisk, drawer.code.characterGap, drawer.code.wide);
    AppendedAfter(head, Run(cs + check, drawer.code.characterGap, drawer.code.wide),
      [Stroke(false, drawer.code.characterGap)], CharacterStrokes(Asterisk, drawer.code.wide));
    Appended("*", Glyphs(cs + check), [Glyph(Asterisk)]);
    drawer.DrawMargin();
  }

  /** The check character `encode` looks up by the accumulator. */
  method CheckByNumber(ghost cs: seq<Character>, sum: int) returns (c: Character)
    requires sum == Checksum(cs)
    ensures c == CheckCharacter(cs)
  {
    ChecksumIsSumModulo(cs);
    ValueOfNumberDefined(sum);
    c := ValueOfNumber(sum).value;
    NumberInjective(c, CheckCharacter(cs));
  }

  /** One more character drawn after a gap extends the run and the label. */
  lemma RunStep(cs: seq<Character>, c: Character, characterGap: real, wide: real)
    ensures Run(cs + [c], characterGap, wide) == Run(cs, characterGap, wide) + [Stroke(false, characterGap)] + CharacterStrokes(c, wide)
    ensures Glyphs(cs + [c]) == Glyphs(cs) + [Glyph(c)]
  {
    assert (cs + [c])[..|cs|] == cs;
  }

  /** Appending two pieces one after the other appends their
      concatenation. */
  lemma Appended<T>(a: seq<T>, b: seq<T>, c: seq<T>)
    ensures a + b + c == a + (b + c)
  {
  }

  /** Appending three pieces one after the other appends their
      concatenation. */
  lemma AppendedAfter<T>(a: seq<T>, b: seq<T>, c: seq<T>, d: seq<T>)
    ensures a + b + c + d == a + (b + c + d)
  {
  }

  /** One step of the accumulator of `encode`. */
  lemma ChecksumStep(cs: seq<Character>, c: Character, sum: int)
    requires sum == Checksum(cs)
    ensures (sum + Number(c)) % 43 == Checksum(cs + [c])
  {
    assert (cs + [c])[..|cs|] == cs;
  }

  /** One more character looked up: its success extends the characters,
      its failure is the failure of the prefix. */
  lemma ValueOfCharsStep(value: string, i: nat)
    requires i < |value| && ValueOfChars(value[..i]).Ok?
    ensures ValueOfChar(value[i]).Ok? ==>
      ValueOfChars(value[..i + 1]) == Ok(ValueOfChars(value[..i]).value + [ValueOfChar(value[i]).value])
    ensures ValueOfChar(value[i]).Err? ==> ValueOfChars(value[..i + 1]) == Err(ValueOfChar(value[i]).error)
  {
    LookUpEachStep(value, ValueOfChar, i);
  }

  /** A failure within a prefix is the failure of the whole input. */
  lemma ValueOfCharsPrefixError(value: string, n: nat)
    requires n <= |value| && ValueOfChars(value[..n]).Err?
    ensures ValueOfChars(value) == ValueOfChars(value[..n])
  {
    LookUpEachPrefixError(value, ValueOfChar, n);
  }

  /** Feeds an image on behalf of an encoder, reading the encoder's
      configuration at every call. */
  class Drawer {
    const image: OneDimensionalImage
    const code: Code39

    constructor (code: Code39)
      ensures this.code == code && fresh(image) && image.Valid()
      ensures image.strokes == [] && image.text == []
    {
      this.code := code;
      image := new OneDimensionalImage();
    }

    method DrawMargin()
      requires image.Valid()
      modifies image
      ensures image.Valid()
      ensures image.strokes == old(image.strokes) + [Stroke(false, code.margin)]
      ensures image.text == old(image.text)
    {
      image.Draw(false, code.margin);
    }

    method DrawCharacterGap()
      requires image.Valid()
      modifies image
      ensures image.Valid()
      ensures image.strokes == old(image.strokes) + [Stroke(false, code.characterGap)]
      ensures image.text == old(image.text)
    {
      image.Draw(false, code.characterGap);
    }

    /** A space of length `wide` when wide, 1 otherwise. */
    method DrawSpace(isWide: bool)
      requires image.Valid()
      modifies image
      ensures image.Valid()
      ensures image.strokes == old(image.strokes) + [Stroke(false, if isWide then code.wide else 1.0)]
      ensures image.text == old(image.text)
    {
      image.Draw(false, if isWide then code.wide else 1.0);
    }

    /** A bar of length `wide` when wide, 1 otherwise. */
    method DrawBar(isWide: bool)
      requires image.Valid()
      modifies image
      ensures image.Valid()
      ensures image.strokes == old(image.strokes) + [Stroke(true, if isWide then code.wide else 1.0)]
      ensures image.text == old(image.text)
    {
      image.Draw(true, if isWide then code.wide else 1.0);
    }

    /** One symbol of a pattern: a space or a bar, wide or narrow. */
    method DrawSymbol(symbol: Symbol)
      requires image.Valid()
      modifies image
      ensures image.Valid()
      ensures image.strokes == old(image.strokes) + [Stroke(symbol.IsBar(), Width(symbol, code.wide))]
      ensures image.text == old(image.text)
    {
      if symbol.IsSpace() {
        DrawSpace(symbol.IsWide());
      } else {
        DrawBar(symbol.IsWide());
      }
    }

    method DrawText(character: char)
      requires image.Valid()
      modifies image
      ensures image.Valid()
      ensures image.strokes == old(image.strokes)
      ensures image.text == old(image.text) + [character]
    {
      image.Text(character);
    }

    /** `character(c)`, which is `c.draw(this)`: the nine symbols of the
        pattern in order, then the glyph. */
    method DrawCharacter(c: Character)
      requires image.Valid()
      modifies image
      ensures image.Valid()
      ensures image.strokes == old(image.strokes) + CharacterStrokes(c, code.wide)
      ensures image.text == old(image.text) + [Glyph(c)]
    {
      var pattern := PatternOf(c);
      for k := 0 to |pattern|
        invariant image.Valid()
        invariant image.strokes == old(image.strokes) + SymbolStrokes(pattern[..k], code.wide)
        invariant image.text == old(image.text)
      {
        DrawSymbol(pattern[k]);
        SymbolStrokesStep(pattern, k, code.wide);
      }
      assert pattern[..|pattern|] == pattern;
      DrawText(Glyph(c));
    }
  }
}
