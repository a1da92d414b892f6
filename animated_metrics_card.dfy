/** The animated metrics card: its value formatting, its background
    gradient and its trend badge. */
module AnimatedMetricsCard {
  import opened Common
  import opened JsNumber

  datatype Format = CurrencyFormat | NumberFormat | PercentageFormat

  datatype CardType = RoasType | DefaultType

  /** The `value` prop: a number, or a text together with the number
      `parseFloat` reads from it (NaN when it reads none). */
  datatype CardValue = NumberValue(n: real) | TextValue(text: string, parsed: JsNum)

  /** What the card shows: the text unchanged, or a number as one of the
      formatters renders it (the rendered digits are not modelled). */
  datatype Shown = Verbatim(text: string) | WholeDollars(v: real) | OneDecimalPercent(v: real)
                 | TwoDecimalTimes(v: real) | LocaleNumber(v: real)

  /** `formatValue(val)` */
  function FormatValue(format: Format, cardType: CardType, val: CardValue): (r: Shown)
    ensures val.TextValue? <==> r.Verbatim?
    ensures val.TextValue? ==> r.text == val.text
    ensures r.TwoDecimalTimes? <==> val.NumberValue? && format == NumberFormat && cardType == RoasType
    ensures val.NumberValue? && format == CurrencyFormat ==> r == WholeDollars(val.n)
    ensures val.NumberValue? && format == PercentageFormat ==> r == OneDecimalPercent(val.n)
    ensures val.NumberValue? && format == NumberFormat && cardType == RoasType ==> r == TwoDecimalTimes(val.n)
    ensures val.NumberValue? && format == NumberFormat && cardType == DefaultType ==> r == LocaleNumber(val.n)
  {
    match val
    case TextValue(text, _) => Verbatim(text)
    case NumberValue(n) =>
      match format
      case CurrencyFormat => WholeDollars(n)
      case PercentageFormat => OneDecimalPercent(n)
      case NumberFormat => if cardType == RoasType then TwoDecimalTimes(n) else LocaleNumber(n)
  }

  /** The number the gradient is chosen by. */
  function NumericValue(val: CardValue): JsNum {
    match val
    case NumberValue(n) => Num(n)
    case TextValue(_, parsed) => parsed
  }

  datatype Gradient = GreenGradient | BlueGradient | YellowGradient | RedGradient | IndigoGradient

  function GradientClass(g: Gradient): string {
    match g
    case GreenGradient => "from-green-500 to-emerald-600"
    case BlueGradient => "from-blue-500 to-cyan-600"
    case YellowGradient => "from-yellow-500 to-orange-600"
    case RedGradient => "from-red-500 to-pink-600"
    case IndigoGradient => "from-indigo-500 to-purple-600"
  }

  /** `getGradientColor()`: the `>=` comparisons of a NaN are all false. */
  function GradientColor(cardType: CardType, val: CardValue): (g: Gradient)
    ensures g == IndigoGradient <==> cardType == DefaultType
    ensures cardType == RoasType ==> (g == GreenGradient <==> AtLeast(NumericValue(val), Num(4.0)))
    ensures cardType == RoasType ==>
      (g == BlueGradient <==> AtLeast(NumericValue(val), Num(3.0)) && !AtLeast(NumericValue(val), Num(4.0)))
    ensures cardType == RoasType ==>
      (g == YellowGradient <==> AtLeast(NumericValue(val), Num(2.0)) && !AtLeast(NumericValue(val), Num(3.0)))
    ensures cardType == RoasType ==> (g == RedGradient <==> !AtLeast(NumericValue(val), Num(2.0)))
  {
    match cardType
    case DefaultType => IndigoGradient
    case RoasType =>
      var x := NumericValue(val);
      if AtLeast(x, Num(4.0)) then AtLeastLower(x, 2.0, 4.0); GreenGradient
      else if AtLeast(x, Num(3.0)) then AtLeastLower(x, 2.0, 3.0); BlueGradient
      else if AtLeast(x, Num(2.0)) then YellowGradient
      else RedGradient
  }

  /** How good a gradient is: red 0, yellow 1, blue 2, green 3. */
  function Rank(g: Gradient): nat {
    match g
    case RedGradient => 0
    case YellowGradient => 1
    case BlueGradient => 2
    case GreenGradient => 3
    case IndigoGradient => 0
  }

  /** A higher ROAS never gets a worse gradient, and a ROAS text that does
      not read as a number is shown red. */
  lemma GradientMonotone(lo: real, hi: real, text: string)
    requires lo <= hi
    ensures Rank(GradientColor(RoasType, NumberValue(lo))) <= Rank(GradientColor(RoasType, NumberValue(hi)))
    ensures GradientColor(RoasType, TextValue(text, NaN)) == RedGradient
  {
  }

  /** The same value shown as a number or as its text parses to the same
      gradient. */
  lemma GradientTextAgrees(n: real, text: string, cardType: CardType)
    ensures GradientColor(cardType, TextValue(text, Num(n))) == GradientColor(cardType, NumberValue(n))
  {
  }

  datatype TrendDirection = TrendUp | TrendDown

  datatype Trend = Trend(value: real, direction: TrendDirection)

  /** The badge: green with the up arrow, or red with the down arrow, and
      the magnitude shown. */
  datatype Badge = Badge(up: bool, styleClass: string, magnitude: real)

  function Abs(x: real): real { if x < 0.0 then -x else x }

  /** The trend badge, present only when a trend is given. */
  function TrendBadge(trend: Option<Trend>): (b: Option<Badge>)
    ensures b.Some? <==> trend.Some?
    ensures b.Some? ==> b.value.magnitude >= 0.0
    ensures b.Some? ==> b.value.magnitude == trend.value.value || b.value.magnitude == -trend.value.value
    ensures b.Some? ==> (b.value.magnitude == 0.0 <==> trend.value.value == 0.0)
    ensures b.Some? ==> (b.value.up <==> trend.value.direction == TrendUp)
  {
    match trend
    case None => None
    case Some(t) =>
      var up := t.direction == TrendUp;
      Some(Badge(up, if up then "bg-green-500/20 text-green-100" else "bg-red-500/20 text-red-100", Abs(t.value)))
  }

  /** The sign of the trend value never shows: only the direction picks the
      styling, so an "up" trend of -5 looks like one of 5. */
  lemma BadgeIgnoresSign(v: real, direction: TrendDirection)
    ensures TrendBadge(Some(Trend(v, direction))) == TrendBadge(Some(Trend(-v, direction)))
  {
  }
}
