/**
 * What the navigation components render for an item's badge. Two rules are
 * in use: `{badge && <Badge>…}` on top-level items, which follows
 * JavaScript truthiness (and, like any `&&` in JSX, renders a falsy number
 * as text), and the sub-item rule, which shows a number only when it is
 * positive and a text only when it is non-empty.
 */
module BadgeView {
  import opened Wrappers
  import Js
  import NavigationConfig

  type Badge = NavigationConfig.Badge

  /** What ends up in the page: nothing, a bare text node, or a Badge element. */
  datatype Output = Nothing | Text(text: string) | BadgeElement(content: Badge)

  predicate Truthy(b: Badge) {
    match b
    case NumberBadge(n) => Js.TruthyNumber(n)
    case TextBadge(t) => t != ""
  }

  /** The text React writes for a falsy number: NaN or zero. */
  function FalsyNumberText(n: Js.Number): (r: string) {
    if n.NaN? then "NaN" else "0"
  }

  /** `{badge && <Badge>{badge}</Badge>}` */
  function AndBadge(badge: Option<Badge>): (r: Output)
    ensures r.BadgeElement? <==> badge.Some? && Truthy(badge.value)
    ensures r.BadgeElement? ==> r.content == badge.value
    ensures r.Text? <==> badge.Some? && badge.value.NumberBadge? && !Js.TruthyNumber(badge.value.n)
    ensures r.Text? ==> r.text == "0" || r.text == "NaN"
  {
    match badge
    case None => Nothing
    case Some(b) =>
      if Truthy(b) then BadgeElement(b)
      else match b
        case NumberBadge(n) => Text(FalsyNumberText(n))
        case TextBadge(_) => Nothing
  }

  /** `badge !== undefined && (typeof badge === 'number' ? badge > 0 : badge)` */
  predicate SubBadgeShown(badge: Option<Badge>) {
    match badge
    case None => false
    case Some(NumberBadge(n)) => n.Num? && n.value > 0.0
    case Some(TextBadge(t)) => t != ""
  }

  /** The sub-item rule never renders a stray text: it is a Badge or nothing. */
  function SubBadge(badge: Option<Badge>): (r: Output)
    ensures r.BadgeElement? <==> SubBadgeShown(badge)
    ensures !r.Text?
    ensures r.BadgeElement? ==> r.content == badge.value
  {
    if SubBadgeShown(badge) then BadgeElement(badge.value) else Nothing
  }

  /** The sub-item rule is the stricter one: it shows a badge only where `&&` would. */
  lemma SubBadgeImpliesTruthy(badge: Option<Badge>)
    ensures SubBadgeShown(badge) ==> AndBadge(badge).BadgeElement?
    ensures badge.Some? && badge.value.TextBadge? ==> (SubBadgeShown(badge) <==> AndBadge(badge).BadgeElement?)
  {
  }

  /** A negative count shows on a top-level item but not on a sub-item. */
  lemma NegativeCountDiffers()
    ensures AndBadge(Some(NavigationConfig.NumberBadge(Js.Num(-1.0)))).BadgeElement?
    ensures SubBadge(Some(NavigationConfig.NumberBadge(Js.Num(-1.0)))) == Nothing
  {
  }

  /** A zero count puts no Badge on a top-level item, but the text "0" appears in its place. */
  lemma ZeroCountRendersZero()
    ensures AndBadge(Some(NavigationConfig.NumberBadge(Js.Num(0.0)))) == Text("0")
    ensures AndBadge(Some(NavigationConfig.TextBadge(""))) == Nothing
  {
  }
}
