/** The plain metrics card: which formatter shows the value, the trend arrow
    and percentage against the previous value, and the value's colour. */
module MetricsCard {
  import opened Common
  import Utils

  datatype Format = CurrencyFormat | PercentageFormat | NumberFormat

  /** The value as one of the formatters renders it; the rendered text
      itself (currency, locale and rounding rules) is not modelled. */
  datatype Shown = AsCurrency(v: real) | AsPercentage(v: real) | AsLocaleNumber(v: real)

  /** `formatValue(val)`, with `format` defaulting to "number". */
  function FormatValue(format: Option<Format>, val: real): (r: Shown)
    ensures r.v == val
    ensures r.AsCurrency? <==> format == Some(CurrencyFormat)
    ensures r.AsPercentage? <==> format == Some(PercentageFormat)
  {
    match format.GetOr(NumberFormat)
    case CurrencyFormat => AsCurrency(val)
    case PercentageFormat => AsPercentage(val)
    case NumberFormat => AsLocaleNumber(val)
  }

  /** `!previousValue`: missing or zero. */
  predicate NoBaseline(previousValue: Option<real>) {
    previousValue.None? || previousValue.value == 0.0
  }

  datatype Direction = Up | Down | Flat

  /** `getTrendIcon()` */
  function TrendIcon(value: real, previousValue: Option<real>): (r: Option<Direction>)
    ensures r.None? <==> NoBaseline(previousValue)
    ensures r == Some(Up) <==> !NoBaseline(previousValue) && value > previousValue.value
    ensures r == Some(Down) <==> !NoBaseline(previousValue) && value < previousValue.value
    ensures r == Some(Flat) <==> !NoBaseline(previousValue) && value == previousValue.value
  {
    if NoBaseline(previousValue) then None
    else
      var diff := value - previousValue.value;
      if diff > 0.0 then Some(Up) else if diff < 0.0 then Some(Down) else Some(Flat)
  }

  function Abs(x: real): real { if x < 0.0 then -x else x }

  /** The trend text: its sign prefix, the size of the change in per cent
      before rounding, and its colour. */
  datatype TrendText = TrendText(direction: string, percentage: real, colorClass: string)

  /** `getTrendText()` */
  function TrendTextOf(value: real, previousValue: Option<real>): (r: Option<TrendText>)
    ensures r.None? <==> NoBaseline(previousValue)
    ensures r.Some? ==> r.value.percentage >= 0.0
    ensures r.Some? ==> r.value.percentage * Abs(previousValue.value) == Abs(value - previousValue.value) * 100.0
    ensures r.Some? ==> (r.value.direction == "+" <==> value > previousValue.value)
    ensures r.Some? ==> r.value.direction in {"+", ""}
    ensures r.Some? ==> (r.value.colorClass == "text-green-600" <==> value > previousValue.value)
    ensures r.Some? ==> (r.value.colorClass == "text-red-600" <==> value < previousValue.value)
    ensures r.Some? ==> (r.value.colorClass == "text-gray-600" <==> value == previousValue.value)
  {
    if NoBaseline(previousValue) then None
    else
      var diff := value - previousValue.value;
      var percentage := Abs((diff / previousValue.value) * 100.0);
      var direction := if diff > 0.0 then "+" else "";
      Some(TrendText(direction, percentage,
                     if diff > 0.0 then "text-green-600" else if diff < 0.0 then "text-red-600" else "text-gray-600"))
  }

  /** The text and the icon always agree: both appear or neither does, the
      "+" shows exactly with the up arrow, the colour follows the arrow, and
      the percentage is zero exactly when the arrow is flat. */
  lemma TrendTextMatchesIcon(value: real, previousValue: Option<real>)
    ensures TrendTextOf(value, previousValue).Some? <==> TrendIcon(value, previousValue).Some?
    ensures TrendTextOf(value, previousValue).Some? ==>
      (TrendTextOf(value, previousValue).value.direction == "+" <==> TrendIcon(value, previousValue) == Some(Up))
    ensures TrendTextOf(value, previousValue).Some? ==>
      (TrendTextOf(value, previousValue).value.colorClass == "text-red-600" <==> TrendIcon(value, previousValue) == Some(Down))
    ensures TrendTextOf(value, previousValue).Some? ==>
      (TrendTextOf(value, previousValue).value.percentage == 0.0 <==> TrendIcon(value, previousValue) == Some(Flat))
  {
    if !NoBaseline(previousValue) {
      var p := previousValue.value;
      var diff := value - p;
      if diff != 0.0 {
        assert diff / p != 0.0 by {
          if diff / p == 0.0 {
            assert diff == (diff / p) * p;
          }
        }
      }
    }
  }

  /** A rise and a fall by the same amount show the same text apart from
      the "+": a decrease carries no minus sign. */
  lemma TrendTextDropsMinus(previous: real, delta: real)
    requires previous != 0.0 && delta > 0.0
    ensures TrendTextOf(previous + delta, Some(previous)).value.percentage
         == TrendTextOf(previous - delta, Some(previous)).value.percentage
    ensures TrendTextOf(previous + delta, Some(previous)).value.direction == "+"
    ensures TrendTextOf(previous - delta, Some(previous)).value.direction == ""
  {
    assert (previous + delta) - previous == delta;
    assert (previous - delta) - previous == -delta;
    assert (-delta) / previous == -(delta / previous);
  }

  /** The `type` prop: one of the four ratios when given. */
  datatype CardType = Roas | Ctr | Cpc | Cpa

  function KindOf(t: CardType): Utils.MetricKind {
    match t
    case Roas => Utils.RoasKind
    case Ctr => Utils.CtrKind
    case Cpc => Utils.CpcKind
    case Cpa => Utils.CpaKind
  }

  /** `performanceColor` */
  function ValueColor(value: real, cardType: Option<CardType>): (r: string)
    ensures cardType.None? ==> r == "text-gray-900"
    ensures cardType.Some? ==> r == Utils.BandClass(Utils.PerformanceColor(value, KindOf(cardType.value)))
  {
    if cardType.Some? then Utils.BandClass(Utils.PerformanceColor(value, KindOf(cardType.value)))
    else "text-gray-900"
  }

  /** A typed card is always green, yellow or red, never the neutral grey of
      an untyped card; a ROAS card turns green from 4 upward. */
  lemma ValueColorBands(value: real, cardType: Option<CardType>)
    ensures cardType.Some? ==> ValueColor(value, cardType) in {"text-green-600", "text-yellow-600", "text-red-600"}
    ensures cardType == Some(Roas) ==> (ValueColor(value, cardType) == "text-green-600" <==> value >= 4.0)
  {
    if cardType.Some? {
      var b := Utils.PerformanceColor(value, KindOf(cardType.value));
      assert b != Utils.Gray;
      if cardType == Some(Roas) {
        assert Utils.BandClass(Utils.Yellow) != "text-green-600";
        assert Utils.BandClass(Utils.Red) != "text-green-600";
      }
    }
  }
}
