/**
  The style of a pager tab strip: a closed set of four visual variants, each
  carrying its own parameters, and the seven read-only properties the tab
  strip reads on every layout pass. Every property is resolved by matching on
  the variant and yields either that variant's own parameter or a fixed
  fallback.
 */
module PagerTabViewStyle {

  /** A SwiftUI colour. Only the two colours the style names itself are told
      apart; every other colour is an opaque, named value. */
  datatype Color = Blue | White | Other(name: string)

  /** Insets around the tab strip, in points. */
  datatype EdgeInsets = EdgeInsets(top: real, leading: real, bottom: real, trailing: real)

  /** The identity of a view-building closure passed to the custom variant.
      No property of the style ever calls or inspects it. */
  datatype ViewBuilder = ViewBuilder(id: nat)

  /** The padding every variant other than `Liner` reports, and the default
      padding argument of `Liner`. */
  const StandardPadding := EdgeInsets(5.0, 16.0, 0.0, 16.0)

  /** Fallbacks used by the variants that do not store the property. */
  const FallbackIndicatorBarColor := Blue
  const FallbackIndicatorBarHeight := 2.0
  const FallbackTabItemHeight := 0.0
  const FallbackBackgroundColor := White

  /** The four variants, with the default arguments of their constructors.
      `Custom` has no defaults. */
  datatype PagerStyle =
    | Liner(indicatorBarHeight: real := 2.0,
            indicatorBarColor: Color := Blue,
            padding: EdgeInsets := StandardPadding,
            tabItemSpacing: real := 10.0,
            tabItemHeight: real := 50.0,
            backgroundColor: Color := White,
            placedInToolbar: bool := false)
    | Custom(tabItemSpacing: real,
             tabItemHeight: real,
             placedInToolbar: bool,
             indicator: ViewBuilder,
             background: ViewBuilder)
    | Bar(indicatorBarHeight: real := 2.0,
          indicatorBarColor: Color := Blue,
          tabItemSpacing: real := 0.0,
          placedInToolbar: bool := false)
    | BarButton(indicatorBarHeight: real := 2.0,
                indicatorBarColor: Color := Blue,
                tabItemSpacing: real := 10.0,
                tabItemHeight: real := 50.0,
                placedInToolbar: bool := false)

  // The seven derived properties, one `match` each.

  function TabItemSpacing(s: PagerStyle): real {
    match s
    case Bar(_, _, spacing, _) => spacing
    case BarButton(_, _, spacing, _, _) => spacing
    case Liner(_, _, _, spacing, _, _, _) => spacing
    case Custom(spacing, _, _, _, _) => spacing
  }

  function IndicatorBarColor(s: PagerStyle): Color {
    match s
    case Bar(_, color, _, _) => color
    case BarButton(_, color, _, _, _) => color
    case Liner(_, color, _, _, _, _, _) => color
    case Custom(_, _, _, _, _) => FallbackIndicatorBarColor
  }

  function IndicatorBarHeight(s: PagerStyle): real {
    match s
    case Bar(height, _, _, _) => height
    case BarButton(height, _, _, _, _) => height
    case Liner(height, _, _, _, _, _, _) => height
    case _ => FallbackIndicatorBarHeight
  }

  function TabItemHeight(s: PagerStyle): real {
    match s
    case BarButton(_, _, _, height, _) => height
    case Liner(_, _, _, _, height, _, _) => height
    case Custom(_, height, _, _, _) => height
    case _ => FallbackTabItemHeight
  }

  function BackgroundColor(s: PagerStyle): Color {
    match s
    case Liner(_, _, _, _, _, color, _) => color
    case _ => FallbackBackgroundColor
  }

  function Padding(s: PagerStyle): EdgeInsets {
    match s
    case Liner(_, _, padding, _, _, _, _) => padding
    case _ => StandardPadding
  }

  function PlacedInToolbar(s: PagerStyle): bool {
    match s
    case Bar(_, _, _, placed) => placed
    case BarButton(_, _, _, _, placed) => placed
    case Liner(_, _, _, _, _, _, placed) => placed
    case Custom(_, _, placed, _, _) => placed
  }

  /** The style the tab strip uses when no enclosing view overrides it. */
  function DefaultPagerStyle(): (s: PagerStyle)
    ensures s.Liner?
    ensures TabItemSpacing(s) == 10.0 && TabItemHeight(s) == 50.0
    ensures IndicatorBarHeight(s) == 2.0 && IndicatorBarColor(s) == Blue
    ensures Padding(s) == EdgeInsets(5.0, 16.0, 0.0, 16.0) && BackgroundColor(s) == White
    ensures !PlacedInToolbar(s)
  {
    Liner()
  }

  // What each property resolves to, per variant.

  /** Every variant stores its spacing; there is no fallback. */
  lemma TabItemSpacingIsStored(s: PagerStyle)
    ensures TabItemSpacing(s) == s.tabItemSpacing
  {}

  /** Every variant stores its toolbar flag; the flag given at construction is
      the flag reported. */
  lemma PlacedInToolbarIsStored(s: PagerStyle)
    ensures PlacedInToolbar(s) == s.placedInToolbar
  {}

  /** Bar, BarButton and Liner report their own indicator colour; Custom
      reports blue. */
  lemma IndicatorBarColorResolution(s: PagerStyle)
    ensures !s.Custom? ==> IndicatorBarColor(s) == s.indicatorBarColor
    ensures s.Custom? ==> IndicatorBarColor(s) == Blue
  {}

  /** Bar, BarButton and Liner report their own indicator height; Custom
      reports 2. */
  lemma IndicatorBarHeightResolution(s: PagerStyle)
    ensures !s.Custom? ==> IndicatorBarHeight(s) == s.indicatorBarHeight
    ensures s.Custom? ==> IndicatorBarHeight(s) == 2.0
  {}

  /** BarButton, Liner and Custom report their own item height; Bar reports
      0. */
  lemma TabItemHeightResolution(s: PagerStyle)
    ensures !s.Bar? ==> TabItemHeight(s) == s.tabItemHeight
    ensures s.Bar? ==> TabItemHeight(s) == 0.0
  {}

  /** Only Liner stores a background colour and a padding; every other variant
      reports white and insets (5, 16, 0, 16). */
  lemma BackgroundAndPaddingResolution(s: PagerStyle)
    ensures s.Liner? ==> BackgroundColor(s) == s.backgroundColor && Padding(s) == s.padding
    ensures !s.Liner? ==> BackgroundColor(s) == White
    ensures !s.Liner? ==> Padding(s) == EdgeInsets(5.0, 16.0, 0.0, 16.0)
  {}

  // Default arguments.

  /** A Liner built from its defaults reports the same indicator height and
      colour as Custom's fallbacks, and the same padding and background as
      every non-Liner variant's fallbacks. */
  lemma DefaultLinerAgreesWithFallbacks(s: PagerStyle)
    ensures s.Custom? ==> IndicatorBarHeight(Liner()) == IndicatorBarHeight(s)
    ensures s.Custom? ==> IndicatorBarColor(Liner()) == IndicatorBarColor(s)
    ensures !s.Liner? ==> Padding(Liner()) == Padding(s)
    ensures !s.Liner? ==> BackgroundColor(Liner()) == BackgroundColor(s)
  {}

  /** A Bar given nothing but its toolbar flag: no spacing, an auto-sized item
      height of 0, the standard indicator, background and padding. */
  lemma DefaultBarResolution(placed: bool)
    ensures TabItemSpacing(Bar(placedInToolbar := placed)) == 0.0
    ensures TabItemHeight(Bar(placedInToolbar := placed)) == 0.0
    ensures IndicatorBarHeight(Bar(placedInToolbar := placed)) == 2.0
    ensures IndicatorBarColor(Bar(placedInToolbar := placed)) == Blue
    ensures BackgroundColor(Bar(placedInToolbar := placed)) == White
    ensures Padding(Bar(placedInToolbar := placed)) == StandardPadding
    ensures PlacedInToolbar(Bar(placedInToolbar := placed)) == placed
  {}
}
