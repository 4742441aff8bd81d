# PagerStyle: the style model of PagerTabStripView

PagerTabStripView is a SwiftUI paged tab strip. A row of tab items, with an
indicator bar, stays in step with a horizontally swipeable set of pages. How
the strip looks is set by one value of the enum `PagerStyle`. It has four cases:

- `liner`: seven parameters, all defaulted;
- `custom`: item spacing, item height, a toolbar flag and two view-building closures; none is defaulted;
- `bar`: four parameters, all defaulted;
- `barButton`: five parameters, all defaulted.

The tab strip reads seven derived properties of the style: `tabItemSpacing`,
`indicatorBarColor`, `indicatorBarHeight`, `tabItemHeight`,
`backgroundColor`, `padding` and `placedInToolbar`. Each one is an
exhaustive `switch` that returns either the case's own parameter or a fixed
fallback. When no enclosing view sets a style, the strip uses `liner()` with
every argument defaulted.

The model has two modules:

- `PagerTabViewStyle` (`pager_style.dfy`) holds the datatype. Its constructors
  keep Swift's default arguments. It also has one function per derived
  property, the ambient default, and lemmas that say what each property
  resolves to in each case.
- `PagerAppearance` (`pager_appearance.dfy`) bundles the seven properties into
  an `Appearance`. For each case it gives the exact set of appearances that
  case can produce. A Liner can produce every appearance. The other three
  cases produce a subset, which each `…CanShow` predicate describes. The
  module also has one inverse of `Resolve` per case, with round-trip lemmas.
  These show that the derived properties fix every stored parameter except
  the custom case's two closures.

Modelling choices:

- `CGFloat` is `real`. The values are only stored and returned, never
  computed with.
- `Color` is `Blue | White | Other(name)`.
- `EdgeInsets` is a four-field record.
- The custom case's closures are opaque `ViewBuilder` identities.

One consequence is proved: the ambient default `liner()` and a fully
defaulted `barButton()` are different cases, but they report the same seven
derived values.

The style has four cases and seven properties. Only `liner` stores a
background colour and a padding; every other case reports white and insets
(5, 16, 0, 16). The `custom` case stores no indicator colour or height, and
reports blue and 2.

## Model

| member | source | states |
|---|---|---|
| PagerTabViewStyle.TabItemSpacingIsStored | Sources/PagerTabViewStyle.swift:13-24 | `TabItemSpacing` returns, in every case, that case's own stored spacing; no case falls back |
| PagerTabViewStyle.IndicatorBarColorResolution | Sources/PagerTabViewStyle.swift:26-37 | `IndicatorBarColor` returns the stored indicator colour for bar, barButton and liner, and blue for custom |
| PagerTabViewStyle.IndicatorBarHeightResolution | Sources/PagerTabViewStyle.swift:39-50 | `IndicatorBarHeight` returns the stored indicator height for bar, barButton and liner, and 2 for custom |
| PagerTabViewStyle.TabItemHeightResolution | Sources/PagerTabViewStyle.swift:52-63 | `TabItemHeight` returns the stored item height for barButton, liner and custom, and 0 for bar |
| PagerTabViewStyle.BackgroundAndPaddingResolution | Sources/PagerTabViewStyle.swift:65-81 | `BackgroundColor` and `Padding` return the stored values only for liner; every other case gets white and insets (5, 16, 0, 16) |
| PagerTabViewStyle.PlacedInToolbarIsStored | Sources/PagerTabViewStyle.swift:83-94 | `PlacedInToolbar` returns, in every case, the toolbar flag the style was built with |
| PagerTabViewStyle.DefaultPagerStyle | Sources/PagerTabViewStyle.swift:124-128 | the ambient default is a liner with spacing 10, item height 50, indicator height 2, blue indicator, insets (5, 16, 0, 16), white background and not in the toolbar |
| PagerTabViewStyle.DefaultLinerAgreesWithFallbacks | Sources/PagerTabViewStyle.swift:96-102 | a fully defaulted liner reports the same indicator height and colour as custom's fallbacks, and the same padding and background as every non-liner case |
| PagerTabViewStyle.DefaultBarResolution | Sources/PagerTabViewStyle.swift:110-113 | a bar given only its toolbar flag reports spacing 0, item height 0, indicator height 2, blue, white, the standard insets, and that flag |
| PagerAppearance.LinerFor | Sources/PagerTabViewStyle.swift:96-102 | for every appearance there is a liner whose seven derived values (`Resolve`) are exactly that appearance |
| PagerAppearance.BarFor | Sources/PagerTabViewStyle.swift:110-113 | for every appearance with item height 0, white background and standard insets there is a bar that resolves to it |
| PagerAppearance.BarButtonFor | Sources/PagerTabViewStyle.swift:115-119 | for every appearance with white background and standard insets there is a barButton that resolves to it |
| PagerAppearance.CustomFor | Sources/PagerTabViewStyle.swift:104-108 | for every appearance with a blue, 2-high indicator, white background and standard insets, and for any pair of view builders, there is a custom style carrying those builders that resolves to it |
| PagerAppearance.LinerShowsEverything | Sources/PagerTabViewStyle.swift:13-94 | the liner case can produce every combination of the seven derived values |
| PagerAppearance.BarImage | Sources/PagerTabViewStyle.swift:13-94 | an appearance comes from some bar if and only if its item height is 0, its background white and its padding the standard insets |
| PagerAppearance.BarButtonImage | Sources/PagerTabViewStyle.swift:13-94 | an appearance comes from some barButton if and only if its background is white and its padding the standard insets |
| PagerAppearance.CustomImage | Sources/PagerTabViewStyle.swift:13-94 | an appearance comes from some custom style if and only if its indicator is blue and 2 high, its background white and its padding the standard insets |
| PagerAppearance.OnlyLinerStylesTheBackground | Sources/PagerTabViewStyle.swift:65-81 | a non-white background or non-standard padding can only come from a liner |
| PagerAppearance.BarButtonSubsumesBarAndCustom | Sources/PagerTabViewStyle.swift:13-94 | every bar and every custom style reports the same seven derived values as some barButton (the case and a custom style's view builders still differ) |
| PagerAppearance.DefaultLinerResolvesLikeDefaultBarButton | Sources/PagerTabViewStyle.swift:96-119 | the ambient default liner and a fully defaulted barButton are different styles that report the same seven derived values |
| PagerAppearance.LinerRoundTrip | Sources/PagerTabViewStyle.swift:96-102 | the derived properties of a liner fix all seven of its parameters |
| PagerAppearance.BarRoundTrip | Sources/PagerTabViewStyle.swift:110-113 | the derived properties of a bar fix all four of its parameters |
| PagerAppearance.BarButtonRoundTrip | Sources/PagerTabViewStyle.swift:115-119 | the derived properties of a barButton fix all five of its parameters |
| PagerAppearance.CustomRoundTrip | Sources/PagerTabViewStyle.swift:104-108 | the derived values of a custom style, with its own view builders put back, give back the style |
| PagerAppearance.CustomViewBuildersUnread | Sources/PagerTabViewStyle.swift:104-108 | two custom styles with equal spacing, item height and toolbar flag report the same seven derived values, whatever view builders they carry |

## Left out

- The `EnvironmentValues.pagerStyle` getter and setter (Sources/PagerTabViewStyle.swift:131-134) are left out. They are SwiftUI's ambient key-value store, and only its default value is modelled.
- SwiftUI's `Color`, `EdgeInsets` and `AnyView` are represented only as the values described above. Nothing is drawn.
- The custom case's `indicator` and `background` closures are opaque identities. No property of the style calls or inspects them.
- `CGFloat` is modelled as an exact `real`. No floating-point behaviour applies, because no property computes with these values.
- The tab-strip views, gestures, animation and the example application are not part of this model. They consume the style and hold no logic of it.
- Package.swift is a build manifest with no logic.
