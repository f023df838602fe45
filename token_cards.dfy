/** The derived values a token card shows: progress, completion, the bar's width,
    the two colour lookups and the buy button. Everything here is a pure function of
    the token record. */
module TokenCards {
  import opened Wrappers
  import opened Offering

  /** Percentage at which an offering counts as completed and the bar is full. */
  const Full: real := 100.0

  const DefaultIconGradient := "from-primary-500 to-primary-600"
  const DefaultProgressGradient := "from-primary-500 to-primary-400"

  /** The symbols that have their own colours. */
  const ColouredSymbols: set<string> := {"AGRO1", "AGRO2", "AGRO3", "AGRO4", "AGRO5"}

  const IconGradients: map<string, string> := map[
    "AGRO1" := "from-green-500 to-green-600",
    "AGRO2" := "from-blue-500 to-blue-600",
    "AGRO3" := "from-purple-500 to-purple-600",
    "AGRO4" := "from-orange-500 to-orange-600",
    "AGRO5" := "from-yellow-500 to-yellow-600"
  ]

  const ProgressGradients: map<string, string> := map[
    "AGRO1" := "from-green-500 to-green-400",
    "AGRO2" := "from-blue-500 to-blue-400",
    "AGRO3" := "from-purple-500 to-purple-400",
    "AGRO4" := "from-orange-500 to-orange-400",
    "AGRO5" := "from-yellow-500 to-yellow-400"
  ]

  const CompletedLabel := "Meta Atingida"
  const BuyPrefix := "Comprar "

  /** `token.progress || 0`: an absent progress reads as 0. A stored 0 is falsy and
      also falls back, to the same 0, so the `||` is a plain default. */
  function Progress(t: Token): (p: real)
    ensures p == t.progress.GetOr(0.0)
  {
    if t.progress.Some? && t.progress.value != 0.0 then t.progress.value else 0.0
  }

  /** `isCompleted`: the offering has reached its goal, which needs a stored progress
      of at least 100. */
  predicate IsCompleted(t: Token): (b: bool)
    ensures b <==> t.progress.Some? && t.progress.value >= Full
  {
    Progress(t) >= Full
  }

  /** `Math.min(progress, 100)`: the width of the filled part of the bar, in percent. */
  function BarWidth(t: Token): (w: real)
    ensures w <= Full
    ensures w == Full <==> IsCompleted(t)
    ensures !IsCompleted(t) ==> w == Progress(t)
    ensures Progress(t) >= 0.0 ==> w >= 0.0
  {
    var p := Progress(t);
    if p < Full then p else Full
  }

  /** `getTokenColor`: the icon gradient for a symbol, the primary gradient for any other. */
  function IconGradient(symbol: string): (g: string)
    ensures g != DefaultIconGradient <==> symbol in ColouredSymbols
    ensures |g| >= 3 && g[|g| - 3..] == "600"
  {
    if symbol in IconGradients then IconGradients[symbol] else DefaultIconGradient
  }

  /** `getProgressColor`: the bar gradient for a symbol, the primary gradient for any other. */
  function ProgressGradient(symbol: string): (g: string)
    ensures g != DefaultProgressGradient <==> symbol in ColouredSymbols
  {
    if symbol in ProgressGradients then ProgressGradients[symbol] else DefaultProgressGradient
  }

  /** The two lookups always agree on the hue: the bar's gradient is the icon's with
      its closing shade 600 lightened to 400, for every symbol, as the two tables
      here define them (an object-literal lookup in JavaScript would also find
      inherited `Object.prototype` keys, which these tables do not have). */
  lemma GradientsShareHue(symbol: string)
    ensures ProgressGradient(symbol)
         == IconGradient(symbol)[..|IconGradient(symbol)| - 3] + "400"
  {
    if symbol in IconGradients {
      assert symbol in ColouredSymbols;
    }
  }

  datatype BuyButton = BuyButton(disabled: bool, caption: string)

  /** What a card shows beyond static text. */
  datatype CardView = CardView(
    completedBadge: bool,
    barWidth: real,
    iconGradient: string,
    barGradient: string,
    button: BuyButton
  )

  /** The card of one token: the "Completo" badge, the bar and the buy button all
      follow the one completion rule. */
  function Render(t: Token): (v: CardView)
    ensures v.completedBadge <==> Progress(t) >= Full
    ensures v.button.disabled == v.completedBadge
    ensures v.button.disabled <==> v.barWidth == Full
    ensures v.barWidth <= Full
    ensures v.button.caption == (if v.button.disabled then CompletedLabel else BuyPrefix + t.symbol)
    ensures v.iconGradient == IconGradient(t.symbol) && v.barGradient == ProgressGradient(t.symbol)
  {
    var done := IsCompleted(t);
    CardView(
      done,
      BarWidth(t),
      IconGradient(t.symbol),
      ProgressGradient(t.symbol),
      BuyButton(done, if done then CompletedLabel else BuyPrefix + t.symbol))
  }

  /** What clicking the buy button hands to `onInvest`: the card's own token, and
      nothing when the button is disabled. */
  function Click(t: Token): (selected: Option<Token>)
    ensures selected.Some? <==> !IsCompleted(t)
    ensures selected.Some? ==> selected.value == t
  {
    if Render(t).button.disabled then None else Some(t)
  }
}
