/**
  What the tab strip sees of a style: the seven derived properties taken
  together. This module states, for each variant, exactly which appearances
  it can produce, and that the derived properties determine every stored
  parameter except the custom variant's view builders.
 */
module PagerAppearance {
  import opened PagerTabViewStyle

  /** The seven derived properties of one style, read in one go. */
  datatype Appearance = Appearance(
    tabItemSpacing: real,
    indicatorBarColor: Color,
    indicatorBarHeight: real,
    tabItemHeight: real,
    backgroundColor: Color,
    padding: EdgeInsets,
    placedInToolbar: bool)

  function Resolve(s: PagerStyle): Appearance {
    Appearance(TabItemSpacing(s), IndicatorBarColor(s), IndicatorBarHeight(s),
               TabItemHeight(s), BackgroundColor(s), Padding(s), PlacedInToolbar(s))
  }

  // The appearances each non-Liner variant can produce (Liner produces all).

  predicate BarCanShow(a: Appearance) {
    a.tabItemHeight == 0.0 && a.backgroundColor == White && a.padding == StandardPadding
  }

  predicate BarButtonCanShow(a: Appearance) {
    a.backgroundColor == White && a.padding == StandardPadding
  }

  predicate CustomCanShow(a: Appearance) {
    && a.indicatorBarColor == Blue && a.indicatorBarHeight == 2.0
    && a.backgroundColor == White && a.padding == StandardPadding
  }

  // Inverses of Resolve, one per variant.

  /** The Liner that shows a given appearance; every appearance has one. */
  function LinerFor(a: Appearance): (s: PagerStyle)
    ensures s.Liner? && Resolve(s) == a
  {
    Liner(a.indicatorBarHeight, a.indicatorBarColor, a.padding, a.tabItemSpacing,
          a.tabItemHeight, a.backgroundColor, a.placedInToolbar)
  }

  /** The Bar that shows an appearance a Bar can show. */
  function BarFor(a: Appearance): (s: PagerStyle)
    requires BarCanShow(a)
    ensures s.Bar? && Resolve(s) == a
  {
    Bar(a.indicatorBarHeight, a.indicatorBarColor, a.tabItemSpacing, a.placedInToolbar)
  }

  /** The BarButton that shows an appearance a BarButton can show. */
  function BarButtonFor(a: Appearance): (s: PagerStyle)
    requires BarButtonCanShow(a)
    ensures s.BarButton? && Resolve(s) == a
  {
    BarButton(a.indicatorBarHeight, a.indicatorBarColor, a.tabItemSpacing,
              a.tabItemHeight, a.placedInToolbar)
  }

  /** The Custom style, with the given view builders, that shows an appearance
      a Custom style can show. */
  function CustomFor(a: Appearance, indicator: ViewBuilder, background: ViewBuilder): (s: PagerStyle)
    requires CustomCanShow(a)
    ensures s.Custom? && s.indicator == indicator && s.background == background
    ensures Resolve(s) == a
  {
    Custom(a.tabItemSpacing, a.tabItemHeight, a.placedInToolbar, indicator, background)
  }

  // Exact images of Resolve, per variant.

  lemma LinerShowsEverything(a: Appearance)
    ensures exists s: PagerStyle :: s.Liner? && Resolve(s) == a
  {
    var s := LinerFor(a);
  }

  lemma BarImage(a: Appearance)
    ensures BarCanShow(a) <==> exists s: PagerStyle :: s.Bar? && Resolve(s) == a
  {
    if BarCanShow(a) {
      var s := BarFor(a);
    }
  }

  lemma BarButtonImage(a: Appearance)
    ensures BarButtonCanShow(a) <==> exists s: PagerStyle :: s.BarButton? && Resolve(s) == a
  {
    if BarButtonCanShow(a) {
      var s := BarButtonFor(a);
    }
  }

  lemma CustomImage(a: Appearance)
    ensures CustomCanShow(a) <==> exists s: PagerStyle :: s.Custom? && Resolve(s) == a
  {
    if CustomCanShow(a) {
      var s := CustomFor(a, ViewBuilder(0), ViewBuilder(0));
    }
  }

  /** A non-white background or a non-standard padding can only come from a
      Liner. */
  lemma OnlyLinerStylesTheBackground(s: PagerStyle)
    ensures Resolve(s).backgroundColor != White ==> s.Liner?
    ensures Resolve(s).padding != StandardPadding ==> s.Liner?
  {}

  /** Every Bar and every Custom style reports the same seven derived values
      as some BarButton: a Bar as a BarButton with item height 0, a Custom as
      a BarButton with the standard indicator. The case itself, and a Custom
      style's view builders, still differ. */
  lemma BarButtonSubsumesBarAndCustom(s: PagerStyle)
    requires s.Bar? || s.Custom?
    ensures exists t: PagerStyle :: t.BarButton? && Resolve(t) == Resolve(s)
  {
    var t := BarButtonFor(Resolve(s));
  }

  /** The ambient default (a Liner with every argument defaulted) reports the
      same seven derived values as a BarButton with every argument defaulted,
      although the two are different cases. */
  lemma DefaultLinerResolvesLikeDefaultBarButton()
    ensures DefaultPagerStyle() != BarButton()
    ensures Resolve(DefaultPagerStyle()) == Resolve(BarButton())
  {}

  // Round trips: the derived properties determine every stored parameter.

  lemma LinerRoundTrip(s: PagerStyle)
    requires s.Liner?
    ensures LinerFor(Resolve(s)) == s
  {}

  lemma BarRoundTrip(s: PagerStyle)
    requires s.Bar?
    ensures BarFor(Resolve(s)) == s
  {}

  lemma BarButtonRoundTrip(s: PagerStyle)
    requires s.BarButton?
    ensures BarButtonFor(Resolve(s)) == s
  {}

  /** The derived values of a Custom style, with its own view builders put
      back, give back the style. */
  lemma CustomRoundTrip(s: PagerStyle)
    requires s.Custom?
    ensures CustomFor(Resolve(s), s.indicator, s.background) == s
  {}

  /** No derived property reads a Custom style's view builders: two Custom
      styles with equal spacing, item height and toolbar flag report the same
      seven derived values, whatever builders they carry. */
  lemma CustomViewBuildersUnread(s: PagerStyle, t: PagerStyle)
    requires s.Custom? && t.Custom?
    requires s.tabItemSpacing == t.tabItemSpacing && s.tabItemHeight == t.tabItemHeight
    requires s.placedInToolbar == t.placedInToolbar
    ensures Resolve(s) == Resolve(t)
  {}
}
