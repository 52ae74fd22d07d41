/** The layout containers' class names: `Container` (bleed and non-bleed), the column
    classes of `GridContainer` and the flexbox classes of `FlexContainer`. Only the
    `className` strings are modelled; the element rendered and the other props passed
    through are not. */
module Container {

  import opened Wrappers
  import opened Seqs
  import opened Text

  // ---------------------------------------------------------------- lookup tables

  datatype Size = XS | SM | MD | LG | XL | XXL | Full
  datatype Padding = PadNone | PadXS | PadSM | PadMD | PadLG | PadXL
  datatype Gap = GapXS | GapSM | GapMD | GapLG | GapXL
  datatype Direction = Row | Col
  datatype Align = AlignStart | AlignCenter | AlignEnd | AlignStretch
  datatype Justify = JustifyStart | JustifyCenter | JustifyEnd | Between | Around | Evenly

  /** `sizes`. */
  function SizeClass(s: Size): string {
    match s
    case XS => "max-w-screen-sm"
    case SM => "max-w-2xl"
    case MD => "max-w-4xl"
    case LG => "max-w-6xl"
    case XL => "max-w-7xl"
    case XXL => "max-w-screen-2xl"
    case Full => "max-w-full"
  }

  /** `paddings`: one class per breakpoint, separated by single spaces. */
  function PaddingClass(p: Padding): string {
    match p
    case PadNone => "px-0"
    case PadXS => "px-3 sm:px-4"
    case PadSM => "px-4 sm:px-6"
    case PadMD => "px-6 sm:px-8 lg:px-12"
    case PadLG => "px-8 sm:px-12 lg:px-16 xl:px-20"
    case PadXL => "px-10 sm:px-16 lg:px-24 xl:px-32"
  }

  /** `gaps`, the same table in `GridContainer` and `FlexContainer`. */
  function GapClass(g: Gap): string {
    match g
    case GapXS => "gap-2"
    case GapSM => "gap-4"
    case GapMD => "gap-6"
    case GapLG => "gap-8"
    case GapXL => "gap-12"
  }

  function DirectionClass(d: Direction): string {
    match d
    case Row => "flex-row"
    case Col => "flex-col"
  }

  function AlignClass(a: Align): string {
    match a
    case AlignStart => "items-start"
    case AlignCenter => "items-center"
    case AlignEnd => "items-end"
    case AlignStretch => "items-stretch"
  }

  function JustifyClass(j: Justify): string {
    match j
    case JustifyStart => "justify-start"
    case JustifyCenter => "justify-center"
    case JustifyEnd => "justify-end"
    case Between => "justify-between"
    case Around => "justify-around"
    case Evenly => "justify-evenly"
  }

  /** Every table entry is a single class token. */
  lemma SizeClassIsWord(s: Size)
    ensures IsWord(SizeClass(s))
  {
    match s
    case XS =>
    case SM =>
    case MD =>
    case LG =>
    case XL =>
    case XXL =>
    case Full =>
  }

  lemma GapClassIsWord(g: Gap)
    ensures IsWord(GapClass(g)) && GapClass(g) != "flex-wrap"
  {
    match g
    case GapXS =>
    case GapSM =>
    case GapMD =>
    case GapLG =>
    case GapXL =>
  }

  lemma DirectionClassIsWord(d: Direction)
    ensures IsWord(DirectionClass(d)) && DirectionClass(d) != "flex-wrap"
  {
    match d
    case Row =>
    case Col =>
  }

  lemma AlignClassIsWord(a: Align)
    ensures IsWord(AlignClass(a)) && AlignClass(a) != "flex-wrap"
  {
    match a
    case AlignStart =>
    case AlignCenter =>
    case AlignEnd =>
    case AlignStretch =>
  }

  lemma JustifyClassIsWord(j: Justify)
    ensures IsWord(JustifyClass(j)) && JustifyClass(j) != "flex-wrap"
  {
    match j
    case JustifyStart =>
    case JustifyCenter =>
    case JustifyEnd =>
    case Between =>
    case Around =>
    case Evenly =>
  }

  // ---------------------------------------------------------------- templates

  lemma {:induction false} WordsLeadingSpace(ws: string, y: string)
    requires AllWhitespace(ws)
    ensures Words(ws + y) == Words(y)
    decreases |ws|
  {
    if ws != [] {
      assert ws + y == [] + [ws[0]] + (ws[1..] + y);
      WordsSplit([], ws[0], ws[1..] + y);
      WordsLeadingSpace(ws[1..], y);
    } else {
      assert ws + y == y;
    }
  }

  lemma {:induction false} WordsTrailingSpace(x: string, ws: string)
    requires AllWhitespace(ws)
    ensures Words(x + ws) == Words(x)
    decreases |ws|
  {
    if ws != [] {
      var n := |ws| - 1;
      assert x + ws == (x + ws[..n]) + [ws[n]];
      WordsSnoc(x + ws[..n], ws[n]);
      WordsTrailingSpace(x, ws[..n]);
    } else {
      assert x + ws == x;
    }
  }

  /** A non-empty whitespace separator in a template never fuses the slots on its two
      sides. */
  lemma WordsJoinWith(a: string, sep: string, b: string)
    requires sep != [] && AllWhitespace(sep)
    ensures Words(a + sep + b) == Words(a) + Words(b)
  {
    assert a + sep + b == a + [sep[0]] + (sep[1..] + b);
    WordsSplit(a, sep[0], sep[1..] + b);
    WordsLeadingSpace(sep[1..], b);
  }

  lemma WordsOfWord(w: string)
    requires IsWord(w)
    ensures Words(w) == [w]
  {
    WordsOfWordThen(w, "");
    assert w + "" == w;
  }

  /** The fixed classes of the templates are single tokens, and the empty slot has none. */
  lemma FixedClassWords()
    ensures Words("w-full") == ["w-full"] && Words("mx-auto") == ["mx-auto"]
    ensures Words("grid") == ["grid"] && Words("flex") == ["flex"]
    ensures Words("flex-wrap") == ["flex-wrap"] && Words("") == []
  {
    BaseWord();
    CenterWord();
    GridWord();
    FlexWord();
    WrapWord();
  }

  // One lemma per literal: the solver handles each literal token on its own
  // far more cheaply than all five in one proof.
  lemma BaseWord() ensures Words("w-full") == ["w-full"] { WordsOfWord("w-full"); }
  lemma CenterWord() ensures Words("mx-auto") == ["mx-auto"] { WordsOfWord("mx-auto"); }
  lemma GridWord() ensures Words("grid") == ["grid"] { WordsOfWord("grid"); }
  lemma FlexWord() ensures Words("flex") == ["flex"] { WordsOfWord("flex"); }
  lemma WrapWord() ensures Words("flex-wrap") == ["flex-wrap"] { WordsOfWord("flex-wrap"); }

  // ---------------------------------------------------------------- Container

  /** The props `Container` reads; an absent one takes its default. */
  datatype ContainerProps = ContainerProps(
    size: Option<Size>, padding: Option<Padding>, center: Option<bool>,
    fluid: Option<bool>, bleed: Option<bool>, className: Option<string>)

  /** Every prop left at its default except the caller's class string. */
  function Defaults(className: string): ContainerProps {
    ContainerProps(None, None, None, None, None, Some(className))
  }

  /** The rendered class names: one element, or in bleed mode the outer element and the
      inner `div`. */
  datatype Rendered = Single(className: string) | Bleed(outer: string, inner: string)

  /** `fluid ? 'max-w-none' : sizes[size]`, with `size = 'xl'` and `fluid = false` by
      default. */
  function SizeSlot(p: ContainerProps): string {
    if p.fluid.GetOr(false) then "max-w-none" else SizeClass(p.size.GetOr(XL))
  }

  /** `paddings[padding]`, with `padding = 'md'` by default. */
  function PaddingSlot(p: ContainerProps): string {
    PaddingClass(p.padding.GetOr(PadMD))
  }

  /** `center ? 'mx-auto' : ''`, with `center = true` by default. */
  function CenterSlot(p: ContainerProps): string {
    if p.center.GetOr(true) then "mx-auto" else ""
  }

  /** The caller's classes, `className = ''` by default. */
  function CallerClass(p: ContainerProps): string {
    p.className.GetOr("")
  }

  /** `${baseClasses} ${sizeClass} ${paddingClass} ${centerClass}`: the bleed mode's
      inner class string, and the start of the non-bleed template. */
  function OwnTemplate(p: ContainerProps): string {
    "w-full" + " " + SizeSlot(p) + " " + PaddingSlot(p) + " " + CenterSlot(p)
  }

  /** `Container`. */
  function Render(p: ContainerProps): (r: Rendered)
    ensures r.Bleed? <==> p.bleed == Some(true)
  {
    if p.bleed.GetOr(false) then
      Bleed("w-full" + " " + CallerClass(p), OwnTemplate(p))
    else
      Single(Normalize(OwnTemplate(p) + " " + CallerClass(p)))
  }

  /** The classes the container itself contributes, in template order: the base class, the
      size, the paddings and the centre class. */
  function OwnTokens(p: ContainerProps): seq<string> {
    ["w-full", SizeSlot(p)] + Words(PaddingSlot(p)) +
    (if p.center.GetOr(true) then ["mx-auto"] else [])
  }

  lemma SizeSlotIsWord(p: ContainerProps)
    ensures IsWord(SizeSlot(p))
  {
    SizeClassIsWord(p.size.GetOr(XL));
  }

  /** The container's own template holds exactly its own classes, in order. */
  lemma OwnTemplateWords(p: ContainerProps)
    ensures Words(OwnTemplate(p)) == OwnTokens(p)
  {
    var size := SizeSlot(p);
    var pad := PaddingSlot(p);
    var center := CenterSlot(p);
    SizeSlotIsWord(p);
    var t1 := "w-full" + " " + size;
    FixedClassWords();
    assert Words(t1) == ["w-full", size] by {
      WordsOfWord(size);
      WordsJoin2("w-full", size);
    }
    var t2 := t1 + " " + pad;
    WordsJoin2(t1, pad);
    var t3 := t2 + " " + center;
    WordsJoin2(t2, center);
    assert OwnTemplate(p) == t3;
  }

  /** Outside bleed mode the class string is whitespace-normalised: no leading or trailing
      whitespace, single spaces only. It holds the container's own classes followed by
      the caller's. */
  lemma SingleClasses(p: ContainerProps)
    requires !p.bleed.GetOr(false)
    ensures Render(p).Single?
    ensures IsNormal(Render(p).className)
    ensures Words(Render(p).className) == OwnTokens(p) + Words(CallerClass(p))
  {
    var s := OwnTemplate(p) + " " + CallerClass(p);
    NormalizeProperties(s);
    WordsJoin2(OwnTemplate(p), CallerClass(p));
    OwnTemplateWords(p);
  }

  /** In bleed mode the outer element carries `w-full` and the caller's classes, the inner
      one the container's own classes and none of the caller's. */
  lemma BleedClasses(p: ContainerProps)
    requires p.bleed.GetOr(false)
    ensures Render(p).Bleed?
    ensures Words(Render(p).outer) == ["w-full"] + Words(CallerClass(p))
    ensures Words(Render(p).inner) == OwnTokens(p)
  {
    OwnTemplateWords(p);
    WordsJoin2("w-full", CallerClass(p));
    FixedClassWords();
  }

  /** `fluid` drops the width limit whatever the size: the size prop then changes
      nothing. Otherwise the size class is the table's entry. */
  lemma FluidOverridesSize(p: ContainerProps, s: Size)
    ensures p.fluid == Some(true) ==> SizeSlot(p) == "max-w-none" && Render(p.(size := Some(s))) == Render(p)
    ensures p.fluid != Some(true) ==> SizeSlot(p.(size := Some(s))) == SizeClass(s)
    ensures p.fluid != Some(true) && p.size == None ==> SizeSlot(p) == "max-w-7xl"
  {
  }

  /** Centring contributes `mx-auto` as the container's last class; switched off, its
      slot contributes nothing. */
  lemma CenterRule(p: ContainerProps)
    ensures p.center != Some(false) ==> OwnTokens(p)[|OwnTokens(p)| - 1] == "mx-auto"
    ensures p.center == Some(false) ==> OwnTokens(p) == ["w-full", SizeSlot(p)] + Words(PaddingSlot(p))
  {
    if p.center == Some(false) {
      assert OwnTokens(p) == ["w-full", SizeSlot(p)] + Words(PaddingSlot(p)) + [];
    }
  }

  /** With every prop at its default the container is the 1280-pixel centred column with
      the medium paddings, followed by the caller's classes. */
  lemma DefaultClasses(p: ContainerProps)
    requires p.size == None && p.padding == None && p.center == None
    requires p.fluid == None && p.bleed == None
    ensures Render(p).Single?
    ensures IsNormal(Render(p).className)
    ensures SizeSlot(p) == "max-w-7xl" && PaddingSlot(p) == "px-6 sm:px-8 lg:px-12" && CenterSlot(p) == "mx-auto"
    ensures Words(Render(p).className) ==
      ["w-full", SizeSlot(p)] + Words(PaddingSlot(p)) + [CenterSlot(p)] + Words(CallerClass(p))
  {
    SingleClasses(p);
  }

  // ---------------------------------------------------------------- GridContainer

  /** `cols`: a column count per breakpoint. */
  datatype Cols = Cols(default: Option<int>, sm: Option<int>, md: Option<int>, lg: Option<int>, xl: Option<int>)

  /** `cols = { default: 1, md: 2, lg: 3 }`. */
  const DefaultCols: Cols := Cols(Some(1), None, Some(2), Some(3), None)

  /** JavaScript truthiness of a column count: set and non-zero. */
  predicate Truthy(n: Option<int>) {
    n.Some? && n.value != 0
  }

  /** `n && `${prefix}${n}``: the class, or a falsy value. */
  function ColEntry(prefix: string, n: Option<int>): Option<string> {
    if Truthy(n) then Some(prefix + IntToString(n.value)) else None
  }

  /** The array literal, before `filter(Boolean)`. */
  function ColEntries(c: Cols): seq<Option<string>> {
    [ ColEntry("grid-cols-", c.default), ColEntry("sm:grid-cols-", c.sm),
      ColEntry("md:grid-cols-", c.md), ColEntry("lg:grid-cols-", c.lg),
      ColEntry("xl:grid-cols-", c.xl) ]
  }

  /** `filter(Boolean)`: the class strings are non-empty, so exactly the set entries stay,
      in order. */
  function Present(xs: seq<Option<string>>): (r: seq<string>)
    ensures |r| <= |xs|
    decreases |xs|
  {
    if xs == [] then []
    else if xs[0].Some? then [xs[0].value] + Present(xs[1..])
    else Present(xs[1..])
  }

  /** `gridCols`. */
  function GridCols(c: Cols): string {
    JoinSpace(Present(ColEntries(c)))
  }

  /** The class a breakpoint value contributes: one when the value is truthy, none
      otherwise. */
  function ColClass(prefix: string, n: Option<int>): seq<string> {
    if Truthy(n) then [prefix + IntToString(n.value)] else []
  }

  /** The column classes in breakpoint order. */
  function ColClasses(c: Cols): seq<string> {
    ColClass("grid-cols-", c.default) + (ColClass("sm:grid-cols-", c.sm) +
    (ColClass("md:grid-cols-", c.md) + (ColClass("lg:grid-cols-", c.lg) +
    ColClass("xl:grid-cols-", c.xl))))
  }

  lemma ColClassWords(prefix: string, n: Option<int>)
    requires IsWord(prefix)
    ensures AllWords(ColClass(prefix, n))
  {
    if Truthy(n) {
      IntToStringNoWhitespace(n.value);
      var s := prefix + IntToString(n.value);
      assert forall i | |prefix| <= i < |s| :: s[i] == IntToString(n.value)[i - |prefix|];
      assert IsWord(s);
    }
  }

  /** The column classes: one per truthy breakpoint value, in the order default, sm, md,
      lg, xl, joined by single spaces; a zero or missing count contributes nothing. */
  lemma GridColsRule(c: Cols)
    ensures GridCols(c) == JoinSpace(ColClasses(c))
    ensures Words(GridCols(c)) == ColClasses(c)
    ensures IsNormal(GridCols(c))
  {
    PresentColEntries(c);
    ColClassesAreWords(c);
    WordsOfJoinSpace(ColClasses(c));
    JoinSpaceIsNormal(ColClasses(c));
  }

  /** The tokens one array entry keeps. */
  function Kept(x: Option<string>): seq<string> {
    if x.Some? then [x.value] else []
  }

  lemma PresentCons(x: Option<string>, xs: seq<Option<string>>)
    ensures Present([x] + xs) == Kept(x) + Present(xs)
  {
    assert ([x] + xs)[1..] == xs;
  }

  /** `filter(Boolean)` over a five-entry array keeps the set entries in order. */
  lemma PresentOfFive(a: Option<string>, b: Option<string>, c: Option<string>, d: Option<string>, e: Option<string>)
    ensures Present([a, b, c, d, e]) == Kept(a) + (Kept(b) + (Kept(c) + (Kept(d) + Kept(e))))
  {
    assert Present([e]) == Kept(e) by {
      PresentCons(e, []);
      assert [e] + [] == [e];
    }
    assert Present([d, e]) == Kept(d) + Present([e]) by {
      PresentCons(d, [e]);
      assert [d] + [e] == [d, e];
    }
    assert Present([c, d, e]) == Kept(c) + Present([d, e]) by {
      PresentCons(c, [d, e]);
      assert [c] + [d, e] == [c, d, e];
    }
    assert Present([b, c, d, e]) == Kept(b) + Present([c, d, e]) by {
      PresentCons(b, [c, d, e]);
      assert [b] + [c, d, e] == [b, c, d, e];
    }
    assert Present([a, b, c, d, e]) == Kept(a) + Present([b, c, d, e]) by {
      PresentCons(a, [b, c, d, e]);
      assert [a] + [b, c, d, e] == [a, b, c, d, e];
    }
  }

  lemma PresentColEntries(c: Cols)
    ensures Present(ColEntries(c)) == ColClasses(c)
  {
    PresentOfFive(ColEntry("grid-cols-", c.default), ColEntry("sm:grid-cols-", c.sm),
      ColEntry("md:grid-cols-", c.md), ColEntry("lg:grid-cols-", c.lg), ColEntry("xl:grid-cols-", c.xl));
  }

  lemma BasePrefixesAreWords()
    ensures IsWord("grid-cols-") && IsWord("sm:grid-cols-")
  {
  }

  lemma UpperPrefixesAreWords()
    ensures IsWord("md:grid-cols-") && IsWord("lg:grid-cols-") && IsWord("xl:grid-cols-")
  {
  }

  lemma ColClassesAreWords(c: Cols)
    ensures AllWords(ColClasses(c))
  {
    BasePrefixesAreWords();
    UpperPrefixesAreWords();
    ColClassWords("grid-cols-", c.default);
    ColClassWords("sm:grid-cols-", c.sm);
    ColClassWords("md:grid-cols-", c.md);
    ColClassWords("lg:grid-cols-", c.lg);
    ColClassWords("xl:grid-cols-", c.xl);
  }

  /** The default columns: one, two from `md` up, three from `lg` up. */
  lemma DefaultGridCols()
    ensures ColClasses(DefaultCols) == ["grid-cols-1", "md:grid-cols-2", "lg:grid-cols-3"]
  {
    assert IntToString(1) == "1" && IntToString(2) == "2" && IntToString(3) == "3";
    assert "grid-cols-" + "1" == "grid-cols-1";
    assert "md:grid-cols-" + "2" == "md:grid-cols-2";
    assert "lg:grid-cols-" + "3" == "lg:grid-cols-3";
  }

  /** A count of zero is the same as no count at all. */
  lemma ZeroColsOmitted(c: Cols)
    ensures GridCols(c.(sm := Some(0))) == GridCols(c.(sm := None))
    ensures GridCols(c.(default := Some(0))) == GridCols(c.(default := None))
  {
  }

  /** `GridContainer`'s props: its own and the container props passed through. */
  datatype GridProps = GridProps(cols: Option<Cols>, gap: Option<Gap>, base: ContainerProps)

  /** `grid ${gridCols} ${gaps[gap]} ${className}`, over the resolved props. */
  function GridClassOf(cols: Cols, gap: Gap, className: string): string {
    "grid" + " " + GridCols(cols) + " " + GapClass(gap) + " " + className
  }

  /** The grid's `className`, its props defaulted. */
  function GridClass(g: GridProps): string {
    GridClassOf(g.cols.GetOr(DefaultCols), g.gap.GetOr(GapMD), CallerClass(g.base))
  }

  /** `GridContainer`: the container with the grid classes as its `className`. */
  function RenderGrid(g: GridProps): Rendered {
    Render(g.base.(className := Some(GridClass(g))))
  }

  /** The grid's tokens: `grid`, the column classes, the gap and the caller's classes. */
  lemma GridClassWords(cols: Cols, gap: Gap, className: string)
    ensures Words(GridClassOf(cols, gap, className)) ==
      ["grid"] + ColClasses(cols) + [GapClass(gap)] + Words(className)
  {
    var gc := GridCols(cols);
    var g := GapClass(gap);
    GridColsRule(cols);
    GapClassIsWord(gap);
    FixedClassWords();
    WordsOfWord(g);
    WordsJoin2("grid", gc);
    WordsJoin2("grid" + " " + gc, g);
    WordsJoin2("grid" + " " + gc + " " + g, className);
  }

  /** Outside bleed mode the grid renders one normalised class string: the container's
      classes, then `grid`, the column classes, the gap and the caller's classes. */
  lemma GridContainerClasses(g: GridProps)
    requires !g.base.bleed.GetOr(false)
    ensures RenderGrid(g).Single? && IsNormal(RenderGrid(g).className)
    ensures Words(RenderGrid(g).className) ==
      OwnTokens(g.base) + (["grid"] + ColClasses(g.cols.GetOr(DefaultCols)) +
      [GapClass(g.gap.GetOr(GapMD))] + Words(CallerClass(g.base)))
  {
    var p := g.base.(className := Some(GridClass(g)));
    var cols := g.cols.GetOr(DefaultCols);
    var gap := g.gap.GetOr(GapMD);
    SingleClasses(p);
    GridClassWords(cols, gap, CallerClass(g.base));
    assert OwnTokens(p) == OwnTokens(g.base);
  }

  // ---------------------------------------------------------------- FlexContainer

  /** `FlexContainer`'s props: its own and the container props passed through. */
  datatype FlexProps = FlexProps(
    direction: Option<Direction>, align: Option<Align>, justify: Option<Justify>,
    gap: Option<Gap>, wrap: Option<bool>, base: ContainerProps)

  /** `wrap ? 'flex-wrap' : ''`. */
  function WrapSlot(f: FlexProps): string {
    if f.wrap.GetOr(false) then "flex-wrap" else ""
  }

  /** The multi-line template literal, before normalisation. */
  function FlexTemplate(f: FlexProps): string {
    "\n        " + "flex" + " \n        " + DirectionClass(f.direction.GetOr(Row)) +
    " \n        " + AlignClass(f.align.GetOr(AlignStart)) +
    " \n        " + JustifyClass(f.justify.GetOr(JustifyStart)) +
    " \n        " + GapClass(f.gap.GetOr(GapMD)) +
    "\n        " + WrapSlot(f) +
    "\n        " + CallerClass(f.base) + "\n      "
  }

  /** The flex template, `trim().replace(/\s+/g, ' ')`-normalised. */
  function FlexClass(f: FlexProps): string {
    Normalize(FlexTemplate(f))
  }

  /** `FlexContainer`: the container with the flex classes as its `className`. */
  function RenderFlex(f: FlexProps): Rendered {
    Render(f.base.(className := Some(FlexClass(f))))
  }

  /** The flex tokens, in template order. */
  function FlexTokens(f: FlexProps): seq<string> {
    [ "flex", DirectionClass(f.direction.GetOr(Row)), AlignClass(f.align.GetOr(AlignStart)),
      JustifyClass(f.justify.GetOr(JustifyStart)), GapClass(f.gap.GetOr(GapMD)) ] +
    (if f.wrap.GetOr(false) then ["flex-wrap"] else []) + Words(CallerClass(f.base))
  }

  /** The flex class string is whitespace-normalised and holds `flex`, the four table
      classes, `flex-wrap` exactly when `wrap` is set, and the caller's classes. */
  lemma FlexClassWords(f: FlexProps)
    ensures IsNormal(FlexClass(f))
    ensures Words(FlexClass(f)) == FlexTokens(f)
  {
    FlexTemplateWords(f);
    NormalizeProperties(FlexTemplate(f));
  }

  lemma FlexTemplateWords(f: FlexProps)
    ensures Words(FlexTemplate(f)) == FlexTokens(f)
  {
    var d := DirectionClass(f.direction.GetOr(Row));
    var a := AlignClass(f.align.GetOr(AlignStart));
    var j := JustifyClass(f.justify.GetOr(JustifyStart));
    var g := GapClass(f.gap.GetOr(GapMD));
    var w := WrapSlot(f);
    var c := CallerClass(f.base);
    assert Words(FlexTemplate(f)) ==
      Words("flex") + Words(d) + Words(a) + Words(j) + Words(g) + Words(w) + Words(c) by {
      FlexSeparators();
      TemplateWords("\n        ", " \n        ", "\n        ", "\n      ", "flex", d, a, j, g, w, c);
    }
    assert Words("flex") + Words(d) + Words(a) + Words(j) + Words(g) == ["flex", d, a, j, g] by {
      DirectionClassIsWord(f.direction.GetOr(Row));
      AlignClassIsWord(f.align.GetOr(AlignStart));
      JustifyClassIsWord(f.justify.GetOr(JustifyStart));
      GapClassIsWord(f.gap.GetOr(GapMD));
      WordsOfWord(d);
      WordsOfWord(a);
      WordsOfWord(j);
      WordsOfWord(g);
      FlexWord();
      assert Words("flex") + Words(d) == ["flex", d];
      assert ["flex", d] + Words(a) == ["flex", d, a];
      assert ["flex", d, a] + Words(j) == ["flex", d, a, j];
    }
    assert Words(w) == (if f.wrap.GetOr(false) then ["flex-wrap"] else []) by {
      FixedClassWords();
    }
  }

  /** `Container` normalises the flex classes a second time, which changes nothing. */
  lemma FlexClassStable(f: FlexProps)
    ensures Normalize(FlexClass(f)) == FlexClass(f)
  {
    NormalizeIdempotent(FlexTemplate(f));
  }

  /** The literal parts of the flex template are whitespace. */
  lemma FlexSeparators()
    ensures AllWhitespace("\n        ") && AllWhitespace(" \n        ") && AllWhitespace("\n      ")
  {
  }

  /** The tokens of a template shaped like the flex template, over any whitespace
      separators: the slots' tokens in order. */
  lemma TemplateWords(s0: string, s1: string, s2: string, e: string,
                      x1: string, x2: string, x3: string, x4: string, x5: string, x6: string, x7: string)
    requires AllWhitespace(s0) && AllWhitespace(s1) && AllWhitespace(s2) && AllWhitespace(e)
    requires s1 != [] && s2 != []
    ensures Words(s0 + x1 + s1 + x2 + s1 + x3 + s1 + x4 + s1 + x5 + s2 + x6 + s2 + x7 + e) ==
      Words(x1) + Words(x2) + Words(x3) + Words(x4) + Words(x5) + Words(x6) + Words(x7)
  {
    var t1 := s0 + x1;
    WordsLeadingSpace(s0, x1);
    var t2 := t1 + s1 + x2;
    WordsJoinWith(t1, s1, x2);
    var t3 := t2 + s1 + x3;
    WordsJoinWith(t2, s1, x3);
    var t4 := t3 + s1 + x4;
    WordsJoinWith(t3, s1, x4);
    var t5 := t4 + s1 + x5;
    WordsJoinWith(t4, s1, x5);
    var t6 := t5 + s2 + x6;
    WordsJoinWith(t5, s2, x6);
    var t7 := t6 + s2 + x7;
    WordsJoinWith(t6, s2, x7);
    WordsTrailingSpace(t7, e);
  }

  /** `flex-wrap` is among the flex classes exactly when `wrap` is set, unless the caller
      passes it in `className` themselves. */
  lemma FlexWrapIff(f: FlexProps)
    requires "flex-wrap" !in Words(CallerClass(f.base))
    ensures "flex-wrap" in Words(FlexClass(f)) <==> f.wrap == Some(true)
  {
    FlexClassWords(f);
    var head := [ "flex", DirectionClass(f.direction.GetOr(Row)), AlignClass(f.align.GetOr(AlignStart)),
      JustifyClass(f.justify.GetOr(JustifyStart)), GapClass(f.gap.GetOr(GapMD)) ];
    assert "flex-wrap" !in head by {
      DirectionClassIsWord(f.direction.GetOr(Row));
      AlignClassIsWord(f.align.GetOr(AlignStart));
      JustifyClassIsWord(f.justify.GetOr(JustifyStart));
      GapClassIsWord(f.gap.GetOr(GapMD));
    }
    if f.wrap == Some(true) {
      assert FlexTokens(f) == head + ["flex-wrap"] + Words(CallerClass(f.base));
    } else {
      assert FlexTokens(f) == head + [] + Words(CallerClass(f.base));
    }
  }

  /** Outside bleed mode the flex container renders one normalised class string: the
      container's classes followed by the flex classes. */
  lemma FlexContainerClasses(f: FlexProps)
    requires !f.base.bleed.GetOr(false)
    ensures RenderFlex(f).Single? && IsNormal(RenderFlex(f).className)
    ensures Words(RenderFlex(f).className) == OwnTokens(f.base) + FlexTokens(f)
  {
    var p := f.base.(className := Some(FlexClass(f)));
    SingleClasses(p);
    FlexClassWords(f);
    assert OwnTokens(p) == OwnTokens(f.base);
  }
}
